/**
 * The prediction step: scale the row when a scaler was loaded, ask the
 * regressor for a price, and build the record that the history keeps.
 */
module Prediction {

  import opened Wrappers
  import opened CityCodes
  import opened PriceLookup
  import opened Features

  /** The loaded scaler's `transform`; None stands for an exception it raises. */
  type Scaler = seq<real> -> Option<seq<real>>

  /** The loaded regressor's `predict`, one price per input row; None stands for an exception. */
  type Regressor = seq<real> -> Option<seq<real>>

  /**
   * The features a record keeps for display: the submitted inputs (the city
   * by name, the basement flag as "Yes"/"No") and the derived values.
   */
  datatype Snapshot = Snapshot(
    bedrooms: int,
    bathrooms: real,
    floors: int,
    sqftLot: int,
    sqftLivingAbove: int,
    yrBuilt: int,
    yrRenovated: int,
    hasBasement: string,
    view: int,
    condition: int,
    city: string,
    propertyAge: int,
    renewedAge: int,
    lotToLivingRatio: real,
    expectedPricePerSqft: real)

  /** One entry of the prediction history. */
  datatype PredictionRecord = PredictionRecord(price: real, features: Snapshot)

  /**
   * Why no record was made: the city lookup raised before inference (outside
   * the exception handler), or scaling or prediction raised inside it.
   */
  datatype PredictError = DeriveFailed(cause: DeriveError) | InferenceFailed

  /**
   * Scale the row if a scaler is present, otherwise use it as it is, then take
   * the first prediction. Any exception on the way, including an empty
   * prediction array, gives None.
   */
  function Infer(row: seq<real>, scaler: Option<Scaler>, model: Regressor): (price: Option<real>)
    ensures price.Some? <==>
      var input := if scaler.Some? then scaler.value(row) else Some(row);
      input.Some? && model(input.value).Some? && |model(input.value).value| > 0
    ensures scaler.Some? && scaler.value(row).None? ==> price.None?
    ensures scaler.None? && price.Some? ==> model(row).Some? && |model(row).value| > 0 && price.value == model(row).value[0]
    ensures scaler.Some? && price.Some? ==>
      scaler.value(row).Some? && model(scaler.value(row).value).Some? &&
      |model(scaler.value(row).value).value| > 0 &&
      price.value == model(scaler.value(row).value).value[0]
  {
    var input := if scaler.Some? then scaler.value(row) else Some(row);
    if input.None? then None
    else
      var prediction := model(input.value);
      if prediction.None? || |prediction.value| == 0 then None else Some(prediction.value[0])
  }

  /** A scaler that hands every row back unchanged. */
  function IdentityScaler(row: seq<real>): Option<seq<real>>
  {
    Some(row)
  }

  /** With an identity scaler the normalized path and the unnormalized fallback agree. */
  lemma IdentityScalerIsTransparent(row: seq<real>, model: Regressor)
    ensures Infer(row, Some(IdentityScaler), model) == Infer(row, None, model)
  {
  }

  /** The snapshot a successful prediction records for `raw` and its vector `v`. */
  function SnapshotOf(raw: RawInput, v: FeatureVector): (s: Snapshot)
    ensures raw.hasBasement == 0 || raw.hasBasement == 1 ==> InputOf(s) == raw
    ensures s.hasBasement == (if raw.hasBasement != 0 then "Yes" else "No")
    ensures s.propertyAge == v.propertyAge && s.renewedAge == v.renewedAge
    ensures s.lotToLivingRatio == v.lotToLivingRatio && s.expectedPricePerSqft == v.expectedPricePerSqft
  {
    Snapshot(
      raw.bedrooms, raw.bathrooms, raw.floors, raw.sqftLot, raw.sqftLivingAbove,
      raw.yrBuilt, raw.yrRenovated, if raw.hasBasement != 0 then "Yes" else "No",
      raw.view, raw.condition, raw.city,
      v.propertyAge, v.renewedAge, v.lotToLivingRatio, v.expectedPricePerSqft)
  }

  /** The submitted inputs read back from a snapshot, the basement flag as 1 or 0. */
  function InputOf(s: Snapshot): RawInput
  {
    RawInput(
      s.bedrooms, s.bathrooms, s.floors, s.sqftLot, s.sqftLivingAbove, s.yrBuilt,
      s.yrRenovated, if s.hasBasement == "Yes" then 1 else 0, s.view, s.condition, s.city)
  }

  /**
   * The "predict" action up to the append: derive the vector, infer a price,
   * and build the record.
   */
  function Predict(raw: RawInput, medians: Option<seq<MedianRow>>, scaler: Option<Scaler>, model: Regressor)
    : (r: Result<PredictionRecord, PredictError>)
    ensures r.Failure? && r.error.DeriveFailed? <==> CityCode(raw.city).None?
    ensures r.Success? <==>
      Derive(raw, medians).Success? && Infer(Row(Derive(raw, medians).value), scaler, model).Some?
    ensures r.Success? ==> Derive(raw, medians).Success?
    ensures r.Success? ==> Some(r.value.price) == Infer(Row(Derive(raw, medians).value), scaler, model)
    ensures r.Success? ==> r.value.features.city == raw.city
    ensures r.Success? ==>
      var v := Derive(raw, medians).value;
      && r.value.features.propertyAge == v.propertyAge
      && r.value.features.renewedAge == v.renewedAge
      && r.value.features.lotToLivingRatio == v.lotToLivingRatio
      && r.value.features.expectedPricePerSqft == v.expectedPricePerSqft
    ensures r.Success? ==> r.value.features == SnapshotOf(raw, Derive(raw, medians).value)
  {
    match Derive(raw, medians)
    case Failure(e) => Failure(DeriveFailed(e))
    case Success(v) =>
      match Infer(Row(v), scaler, model)
      case None => Failure(InferenceFailed)
      case Some(price) => Success(PredictionRecord(price, SnapshotOf(raw, v)))
  }

  /** A record's snapshot gives back exactly the input that was submitted (basement slider 0 or 1). */
  lemma RecordKeepsInput(raw: RawInput, medians: Option<seq<MedianRow>>, scaler: Option<Scaler>, model: Regressor)
    requires raw.hasBasement == 0 || raw.hasBasement == 1
    requires Predict(raw, medians, scaler, model).Success?
    ensures InputOf(Predict(raw, medians, scaler, model).value.features) == raw
  {
  }

  /**
   * The default form for Seattle with a table giving 2.5 per square foot, an
   * identity scaler and a regressor that always answers 500000: the record
   * holds that price and the derived ages, ratio and unit price.
   */
  lemma SeattlePrediction()
    ensures Predict(
        RawInput(3, 2.0, 1, 10000, 2000, 2000, 0, 0, 0, 3, "Seattle"),
        Some([MedianRow(5, 3, 2.5)]),
        Some(IdentityScaler),
        (row: seq<real>) => Some([500000.0]))
      == Success(PredictionRecord(500000.0,
           Snapshot(3, 2.0, 1, 10000, 2000, 2000, 0, "No", 0, 3, "Seattle", 14, 14, 5.0, 2.5)))
  {
  }
}
