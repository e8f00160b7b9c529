/**
 * The per-session prediction history: empty when the session starts, one
 * record appended per successful prediction, emptied by the clear button.
 */
module History {

  import opened Wrappers
  import opened PriceLookup
  import opened Features
  import opened Prediction

  class Session {

    /** The predictions made in this session, oldest first. */
    var predictions: seq<PredictionRecord>

    /** A new session starts with no predictions. */
    constructor ()
      ensures predictions == []
    {
      predictions := [];
    }

    /**
     * The "predict" action: derive the vector, infer a price and, only when
     * both succeed, append the record; a failure leaves the history as it was.
     */
    method PredictClicked(raw: RawInput, medians: Option<seq<MedianRow>>, scaler: Option<Scaler>, model: Regressor)
      returns (r: Result<PredictionRecord, PredictError>)
      modifies this
      ensures r == Predict(raw, medians, scaler, model)
      ensures r.Success? ==> predictions == old(predictions) + [r.value]
      ensures r.Failure? ==> predictions == old(predictions)
    {
      var derived := Derive(raw, medians);
      if derived.Failure? {
        return Failure(DeriveFailed(derived.error));
      }
      var vector := derived.value;
      var price := Infer(Row(vector), scaler, model);
      if price.None? {
        return Failure(InferenceFailed);
      }
      var record := PredictionRecord(price.value, SnapshotOf(raw, vector));
      predictions := predictions + [record];
      r := Success(record);
    }

    /** The clear button: the history becomes empty. */
    method ClearPredictions()
      modifies this
      ensures predictions == []
    {
      predictions := [];
    }
  }

  /**
   * A session as a client sees it: one successful prediction adds exactly one
   * record, a failing regressor adds none, and clearing empties the history.
   */
  method SessionScenario()
  {
    var session := new Session();
    var raw := RawInput(3, 2.0, 1, 10000, 2000, 2000, 0, 0, 0, 3, "Seattle");
    var medians := Some([MedianRow(5, 3, 2.5)]);
    var r := session.PredictClicked(raw, medians, Some(IdentityScaler), (row: seq<real>) => Some([500000.0]));
    SeattlePrediction();
    assert r.Success? && r.value.price == 500000.0;
    assert |session.predictions| == 1 && session.predictions[0] == r.value;
    var failed := session.PredictClicked(raw, medians, None, (row: seq<real>) => None);
    assert failed == Failure(InferenceFailed);
    assert session.predictions == [r.value];
    session.ClearPredictions();
    assert session.predictions == [];
  }
}
