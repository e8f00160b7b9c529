/**
 * Feature derivation: from the raw form inputs and the medians table to the
 * 13-column row the scaler and the regressor were fitted on.
 */
module Features {

  import opened Wrappers
  import opened CityCodes
  import opened PriceLookup

  /** The year ages are measured from: the anchor of the training data, not the clock. */
  const ReferenceYear: int := 2014

  /** The values the form submits. `hasBasement` is the 0/1 slider. */
  datatype RawInput = RawInput(
    bedrooms: int,
    bathrooms: real,
    floors: int,
    sqftLot: int,
    sqftLivingAbove: int,
    yrBuilt: int,
    yrRenovated: int,
    hasBasement: int,
    view: int,
    condition: int,
    city: string)

  /** The one-row input frame; the constructor's parameters are its columns, in order. */
  datatype FeatureVector = FeatureVector(
    bedrooms: int,
    bathrooms: real,
    sqftLot: int,
    floors: int,
    view: int,
    condition: int,
    city: int,
    sqftLivingAbove: int,
    expectedPricePerSqft: real,
    propertyAge: int,
    renewedAge: int,
    lotToLivingRatio: real,
    hasBasement: int)

  /** Why a vector cannot be built: the city is not a key of the city table. */
  datatype DeriveError = UnknownCity(city: string)

  /** The column names of the input frame, in the order the model expects them. */
  const FeatureNames: seq<string> := [
    "bedrooms", "bathrooms", "sqft_lot", "floors", "view", "condition", "city",
    "sqft_living_above", "expected_price_per_sqft", "property_age", "renewed_age",
    "lot_to_living_ratio", "has_basement"
  ]

  /** Years since construction, counted at the reference year. */
  function PropertyAge(yrBuilt: int): (age: int)
    ensures yrBuilt <= ReferenceYear ==> age >= 0
    ensures yrBuilt + age == ReferenceYear
  {
    ReferenceYear - yrBuilt
  }

  /**
   * Years since the last renovation; a renovation year of 0 means "never
   * renovated", and then the construction year counts instead.
   */
  function RenewedAge(yrBuilt: int, yrRenovated: int): (age: int)
    ensures yrRenovated == 0 ==> age == PropertyAge(yrBuilt)
    ensures yrRenovated != 0 ==> yrRenovated + age == ReferenceYear
  {
    var effectiveYrRenovated := if yrRenovated == 0 then yrBuilt else yrRenovated;
    ReferenceYear - effectiveYrRenovated
  }

  /**
   * Lot area over living area above ground, or 0 when the living area is not
   * positive, so that no division by zero happens.
   */
  function LotToLivingRatio(sqftLot: int, sqftLivingAbove: int): (ratio: real)
    ensures sqftLivingAbove <= 0 ==> ratio == 0.0
    ensures sqftLivingAbove > 0 ==> ratio * sqftLivingAbove as real == sqftLot as real
    ensures sqftLot >= 0 ==> ratio >= 0.0
  {
    if sqftLivingAbove > 0 then sqftLot as real / sqftLivingAbove as real else 0.0
  }

  /**
   * The derivation block: the city name is replaced by its code, which also
   * keys the price lookup; a city outside the table fails, as the dictionary
   * lookup raises.
   */
  function Derive(raw: RawInput, medians: Option<seq<MedianRow>>): (r: Result<FeatureVector, DeriveError>)
    ensures r.Failure? <==> CityCode(raw.city).None?
    ensures r.Failure? ==> r.error == UnknownCity(raw.city)
    ensures r.Success? ==> CityName(r.value.city) == Some(raw.city)
    ensures r.Success? ==> r.value.expectedPricePerSqft == ExpectedPricePerSqft(r.value.city, raw.condition, medians)
    ensures r.Success? ==> r.value.propertyAge + raw.yrBuilt == ReferenceYear
    ensures r.Success? && raw.yrRenovated == 0 ==> r.value.renewedAge == r.value.propertyAge
    ensures r.Success? && raw.yrRenovated != 0 ==> r.value.renewedAge + raw.yrRenovated == ReferenceYear
    ensures r.Success? && raw.sqftLivingAbove <= 0 ==> r.value.lotToLivingRatio == 0.0
    ensures r.Success? && raw.sqftLivingAbove > 0 ==>
      r.value.lotToLivingRatio * raw.sqftLivingAbove as real == raw.sqftLot as real
    ensures r.Success? ==>
      && r.value.bedrooms == raw.bedrooms && r.value.bathrooms == raw.bathrooms
      && r.value.sqftLot == raw.sqftLot && r.value.floors == raw.floors
      && r.value.view == raw.view && r.value.condition == raw.condition
      && r.value.sqftLivingAbove == raw.sqftLivingAbove && r.value.hasBasement == raw.hasBasement
  {
    match CityCode(raw.city)
    case None => Failure(UnknownCity(raw.city))
    case Some(cityNumber) =>
      CodeDecodesToCity(raw.city);
      Success(FeatureVector(
        raw.bedrooms,
        raw.bathrooms,
        raw.sqftLot,
        raw.floors,
        raw.view,
        raw.condition,
        cityNumber,
        raw.sqftLivingAbove,
        ExpectedPricePerSqft(cityNumber, raw.condition, medians),
        PropertyAge(raw.yrBuilt),
        RenewedAge(raw.yrBuilt, raw.yrRenovated),
        LotToLivingRatio(raw.sqftLot, raw.sqftLivingAbove),
        raw.hasBasement))
  }

  /** The vector as the numeric row handed to the scaler and the regressor, column by column. */
  function Row(v: FeatureVector): (row: seq<real>)
    ensures |row| == |FeatureNames|
  {
    [v.bedrooms as real, v.bathrooms, v.sqftLot as real, v.floors as real, v.view as real,
     v.condition as real, v.city as real, v.sqftLivingAbove as real, v.expectedPricePerSqft,
     v.propertyAge as real, v.renewedAge as real, v.lotToLivingRatio, v.hasBasement as real]
  }

  /** A column of the frame looked up by its name. */
  function Column(v: FeatureVector, name: string): Option<real>
  {
    match name
    case "bedrooms" => Some(v.bedrooms as real)
    case "bathrooms" => Some(v.bathrooms)
    case "sqft_lot" => Some(v.sqftLot as real)
    case "floors" => Some(v.floors as real)
    case "view" => Some(v.view as real)
    case "condition" => Some(v.condition as real)
    case "city" => Some(v.city as real)
    case "sqft_living_above" => Some(v.sqftLivingAbove as real)
    case "expected_price_per_sqft" => Some(v.expectedPricePerSqft)
    case "property_age" => Some(v.propertyAge as real)
    case "renewed_age" => Some(v.renewedAge as real)
    case "lot_to_living_ratio" => Some(v.lotToLivingRatio)
    case "has_basement" => Some(v.hasBasement as real)
    case _ => None
  }

  /** Position i of the row holds the column named FeatureNames[i]: the order never varies. */
  lemma RowFollowsFeatureNames(v: FeatureVector)
    ensures forall i :: 0 <= i < |FeatureNames| ==> Column(v, FeatureNames[i]) == Some(Row(v)[i])
  {
  }

  /**
   * For a construction year in the slider's range 1900..2014 and a
   * renovation year that is 0 or not before construction, both ages lie in 0..114 and a renovation never makes a
   * house older.
   */
  lemma AgesWithinFormRange(yrBuilt: int, yrRenovated: int)
    requires 1900 <= yrBuilt <= ReferenceYear
    requires yrRenovated == 0 || yrBuilt <= yrRenovated <= ReferenceYear
    ensures 0 <= RenewedAge(yrBuilt, yrRenovated) <= PropertyAge(yrBuilt) <= ReferenceYear - 1900
  {
  }

  /**
   * The renovation slider is independent of the construction slider, so a
   * renovation year before construction goes through and gives a renewed age
   * above the property age.
   */
  lemma RenovationBeforeConstructionIsAccepted()
    ensures RenewedAge(2000, 1950) == 64 && PropertyAge(2000) == 14
  {
  }

  /** The derivation of the default form values for Seattle, with a one-row medians table. */
  lemma SeattleDerivation()
    ensures Derive(RawInput(3, 2.0, 1, 10000, 2000, 2000, 0, 0, 0, 3, "Seattle"), Some([MedianRow(5, 3, 2.5)]))
      == Success(FeatureVector(3, 2.0, 10000, 1, 0, 3, 5, 2000, 2.5, 14, 14, 5.0, 0))
  {
  }
}
