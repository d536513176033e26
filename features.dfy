/** Derived device features of the offline evaluator
    (`_enhanced_feature_engineering` in comprehensive_evaluation.py). */
module Features {

  /** One row of the processed device data set, with the columns the
      feature engineering and the reward model read. */
  datatype DeviceRow = DeviceRow(
    storage: real, ram: real, screenSize: real, camera: real, battery: real,
    marketShock: real, backglassDamage: real, screenDamage: real,
    monthsSinceRelease: real, inventoryLevel: string, price: real)

  datatype Segment = Premium | HighEnd | MidRange | Budget
  {
    /** The label the `Market_Segment` column holds. */
    function Name(): string
    {
      match this
      case Premium => "premium"
      case HighEnd => "high_end"
      case MidRange => "mid_range"
      case Budget => "budget"
    }

    /** Position from the cheapest segment up. */
    function Rank(): nat
    {
      match this
      case Budget => 0
      case MidRange => 1
      case HighEnd => 2
      case Premium => 3
    }
  }

  /** Market segment by storage size: cut-offs at 512, 256 and 128. */
  function MarketSegment(storage: real): (s: Segment)
    ensures s == Premium <==> 512.0 <= storage
    ensures s == HighEnd <==> 256.0 <= storage < 512.0
    ensures s == MidRange <==> 128.0 <= storage < 256.0
    ensures s == Budget <==> storage < 128.0
  {
    if storage >= 512.0 then Premium
    else if storage >= 256.0 then HighEnd
    else if storage >= 128.0 then MidRange
    else Budget
  }

  /** More storage never puts a device in a cheaper segment. */
  lemma SegmentMonotone(s1: real, s2: real)
    requires s1 <= s2
    ensures MarketSegment(s1).Rank() <= MarketSegment(s2).Rank()
  {
  }

  /** `Condition_Score`: 0.4 per battery point and 30 per undamaged panel. */
  function ConditionScore(battery: real, backglassDamage: real, screenDamage: real): (c: real)
    ensures c == 0.4 * battery + 60.0 - 30.0 * (backglassDamage + screenDamage)
  {
    battery * 0.4 + (1.0 - backglassDamage) * 30.0 + (1.0 - screenDamage) * 30.0
  }

  /** With a battery health in [0, 100] and 0/1 damage flags the score lies in
      [0, 100], and it is 100 exactly for a perfect device. */
  lemma ConditionScoreRange(battery: real, backglassDamage: real, screenDamage: real)
    requires 0.0 <= battery <= 100.0
    requires backglassDamage == 0.0 || backglassDamage == 1.0
    requires screenDamage == 0.0 || screenDamage == 1.0
    ensures 0.0 <= ConditionScore(battery, backglassDamage, screenDamage) <= 100.0
    ensures ConditionScore(battery, backglassDamage, screenDamage) == 100.0
            <==> battery == 100.0 && backglassDamage == 0.0 && screenDamage == 0.0
  {
  }

  /** A row after feature engineering: the original columns and the derived ones. */
  datatype Engineered = Engineered(
    row: DeviceRow,
    storageRamInteraction: real, batteryAgeInteraction: real, damageTotal: real,
    storageSquared: real, batterySquared: real, marketSegment: Segment,
    conditionScore: real, ageDepreciation: real)

  /** Derived columns of one row. `decay` stands for the exponential
      x ↦ exp(-x / 24) applied to `Months_since_release`. */
  function EngineerFeatures(row: DeviceRow, decay: real -> real): (e: Engineered)
    ensures e.row == row
    ensures e.conditionScore == 0.4 * row.battery + 60.0 - 30.0 * e.damageTotal
    ensures e.marketSegment.Name() in {"premium", "high_end", "mid_range", "budget"}
  {
    Engineered(
      row,
      row.storage * row.ram,
      row.battery * (100.0 - row.monthsSinceRelease),
      row.backglassDamage + row.screenDamage,
      row.storage * row.storage,
      row.battery * row.battery,
      MarketSegment(row.storage),
      ConditionScore(row.battery, row.backglassDamage, row.screenDamage),
      decay(row.monthsSinceRelease))
  }

  /** The data-frame version: row by row, same length, same order. */
  function EngineerAll(rows: seq<DeviceRow>, decay: real -> real): (es: seq<Engineered>)
    ensures |es| == |rows|
    ensures forall i :: 0 <= i < |rows| ==> es[i].row == rows[i]
  {
    seq(|rows|, i requires 0 <= i < |rows| => EngineerFeatures(rows[i], decay))
  }

  /** The numeric column names, in the order the context lays them out. */
  const NumericalFeatureNames: seq<string> := [
    "Storage", "RAM", "Screen Size", "Camera", "Battery",
    "market_shock", "Backglass_Damage", "Screen_Damage",
    "Storage_RAM_interaction", "Battery_Age_interaction", "Damage_Total",
    "Storage_squared", "Battery_squared", "Condition_Score", "Age_Depreciation"]

  /** The categorical column names, in the order the one-hot block lays them out. */
  const CategoricalFeatureNames: seq<string> := ["inventory_level", "Market_Segment"]

  /** The numeric columns of an engineered row, one value per name above. */
  function NumericalFeatures(e: Engineered): (v: seq<real>)
    ensures |v| == |NumericalFeatureNames|
    ensures v[0] == e.row.storage && v[4] == e.row.battery && v[13] == e.conditionScore
  {
    [e.row.storage, e.row.ram, e.row.screenSize, e.row.camera, e.row.battery,
     e.row.marketShock, e.row.backglassDamage, e.row.screenDamage,
     e.storageRamInteraction, e.batteryAgeInteraction, e.damageTotal,
     e.storageSquared, e.batterySquared, e.conditionScore, e.ageDepreciation]
  }

  /** The categorical values of an engineered row, one per categorical name. */
  function CategoricalFeatures(e: Engineered): (v: seq<string>)
    ensures |v| == |CategoricalFeatureNames|
  {
    [e.row.inventoryLevel, e.marketSegment.Name()]
  }
}
