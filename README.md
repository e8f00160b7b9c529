# Real-estate price prediction: a verified model of the prediction core

The application is a single Streamlit page. It collects the attributes of a
King County property and derives the engineered features the regressor was
trained on. It asks a pre-trained XGBoost regressor, behind a MinMax scaler,
for a sale price. Each session keeps the predictions it has made, so that
the sidebar can point at the cheapest or the dearest one.

This project models the part of `app.py` that computes and keeps state:

- `CityCodes`: the `city_mapping` table of 44 names and codes 1..44, with the
  inverse table as its partner.
- `PriceLookup`: `calculate_expected_price_per_sqft_single`. It looks up the
  first medians row for a (city code, condition) key, and falls back to 200.
- `Features`: the derivation block. It computes both ages against the anchor
  year 2014 and the guarded lot-to-living ratio, replaces the city name by its
  code, and lays out the 13 columns in the order the model was trained on.
- `Prediction`: optional scaling, then the regressor, then the record that the
  history keeps.
- `History`: the per-session list of predictions, as a class. The list starts
  empty, grows by one record per successful prediction, and is emptied by the
  clear button.
- `Comparator`: `prices.index(min(prices))` and `prices.index(max(prices))`.
  The selected index is the first one holding the extreme price.

Prices, bathrooms and the ratio are `real`. The scaler and the regressor are
parameters: total functions that return `None` where the library would raise.

Four behaviours of the code are worth knowing, and the model keeps each as
written:

- A record does not say whether it was normalized. Whether the scaler was
  applied is only displayed (app.py:430).
- An inference failure does not say which stage failed. One handler catches
  both scaling and prediction (app.py:432-434).
- `city_mapping[city]` sits outside the exception handler (app.py:340), so a
  city outside the table would raise out of the page. The city select box
  offers only the table's keys (app.py:315), so the form cannot reach this
  path. The model still covers it: it returns
  `DeriveFailed(UnknownCity(city))` and leaves the history unchanged.
- The renovation slider (0..2014) is independent of the construction year
  (app.py:313-314). A renovation year before construction goes through, and
  then the renewed age exceeds the property age
  (`Features.RenovationBeforeConstructionIsAccepted`). `Features.AgesWithinFormRange`
  shows that renewed age <= property age once the renovation year is 0 or
  not before construction.

## Model

| member | source | states |
|---|---|---|
| CityCodes.CityCode | app.py:290-302 | The `city_mapping` table read as a function: None where indexing raises KeyError. Every code it hands out lies in 1..44. |
| CityCodes.CodeDecodesToCity | app.py:290-302 | The inverse table maps the code of every city in `city_mapping` back to that city. |
| CityCodes.CityEncodesToCode | app.py:290-302 | Every code the inverse table knows is the code of the city it names. |
| CityCodes.CodesAreOneToCityCount | app.py:290-302 | The inverse table is defined on exactly the numbers 1..44. |
| CityCodes.CityMappingValues | app.py:290-302 | A number is a value of `city_mapping` exactly when it lies in 1..44. |
| CityCodes.CityCodeInjective | app.py:290-302 | No two cities share a code. |
| PriceLookup.Filter | app.py:202 | Every filtered row matches the (city, condition) key. The filtered frame is empty exactly when no row of the table matches. |
| PriceLookup.FilterStartsWithFirstMatch | app.py:202-205 | The head of the filtered frame (`iloc[0]`) is the first matching row of the table. |
| PriceLookup.ExpectedPricePerSqft | app.py:196-207 | 200 when the table failed to load or no row matches. Otherwise the price of the first matching row. |
| Features.PropertyAge | app.py:343-344 | The property age is 2014 minus the construction year, and never negative for a house built by 2014. |
| Features.RenewedAge | app.py:345-346 | Renovation year 0 gives the property age. Any other renovation year gives 2014 minus that year. |
| Features.LotToLivingRatio | app.py:349-352 | 0 for a living area that is not positive, whatever the lot. Otherwise ratio times living area equals the lot area. Never negative for a non-negative lot. |
| Features.Derive | app.py:337-372 | Fails exactly for a city outside the table. On success the vector holds the city's code, which decodes back to the submitted name, and the unit price looked up with that code. Property age plus construction year is 2014. Renewed age equals property age when never renovated, and is otherwise 2014 minus the renovation year. The ratio is 0 without living area, and otherwise ratio times living area is the lot area. The remaining inputs are copied unchanged. |
| Features.Row | app.py:358-372 | The numeric row has one entry per feature name in `FeatureNames`, 13 in all. |
| Features.RowFollowsFeatureNames | app.py:358-372 | Position i of the row holds the column named by the i-th name of `FeatureNames`. |
| Features.AgesWithinFormRange | app.py:343-346 | For a construction year in 1900..2014 and a renovation year that is 0 or not before construction, 0 <= renewed age <= property age <= 114. |
| Features.RenovationBeforeConstructionIsAccepted | app.py:345-346 | Built 2000 and renovated 1950 gives renewed age 64 against property age 14. |
| Features.SeattleDerivation | app.py:337-372 | The default Seattle inputs derive ages 14 and 14, ratio 5.0, city code 5 and the table's 2.5 per square foot. |
| Prediction.Infer | app.py:375-386 | A price is produced exactly when the scaler (if present) returns, the regressor returns, and its output is non-empty. A scaling failure fails inference. Without a scaler the price is the regressor's first output on the raw row. With one, it is the first output on the scaled row. |
| Prediction.IdentityScalerIsTransparent | app.py:377-384 | An identity scaler makes the normalized path agree with the unnormalized fallback. |
| Prediction.Predict | app.py:335-408 | Succeeds exactly when derivation succeeds and inference yields a price. Fails at derivation exactly for an unknown city. On success the price is the inferred one, the record keeps the city by name, its derived fields are the vector's, and its whole snapshot is SnapshotOf of the input and the derived vector. |
| Prediction.SnapshotOf | app.py:389-408 | The snapshot reads back as the submitted input for a 0/1 basement value, records "Yes" for a non-zero basement value and "No" otherwise, and carries the vector's ages, ratio and unit price. |
| Prediction.RecordKeepsInput | app.py:389-408 | For a 0/1 basement value, a record's snapshot reads back as exactly the submitted input. |
| Prediction.SeattlePrediction | app.py:335-410 | With a 2.5 table, an identity scaler and a constant regressor, the record holds price 500000 and the expected derived values. |
| Comparator.Prices | app.py:233 | The price list has one entry per record, in history order. |
| Comparator.Minimum | app.py:236 | `min` returns an element of the list that is no larger than any element. |
| Comparator.Maximum | app.py:241 | `max` returns an element of the list that is no smaller than any element. |
| Comparator.IndexOf | app.py:236 | `list.index` returns an in-bounds position holding the value, with no earlier occurrence. |
| Comparator.Select | app.py:232-244 | None exactly for an empty history. Otherwise an in-bounds index whose price is <= (minimal) or >= (high) every price, with no earlier record at that price. |
| Comparator.SelectionIsUnique | app.py:233-244 | Any extreme index with no earlier record at its price is the selected one. |
| Comparator.StrictNewMinimumIsSelected | app.py:233-236 | A new record priced strictly below all earlier ones becomes the minimal-capital choice. |
| Comparator.StrictNewMaximumIsSelected | app.py:240-242 | A new record priced strictly above all earlier ones becomes the high-capital choice. |
| Comparator.TieKeepsEarlierSelection | app.py:233-244 | Appending a record that does not strictly beat the current choice leaves the choice unchanged. |
| Comparator.FirstOfTiedMinimaIsSelected | app.py:235-237 | For prices 300000, 150000, 150000 the minimal-capital choice is index 1. |
| History.Session.constructor | app.py:26-27 | A session starts with an empty history. |
| History.Session.PredictClicked | app.py:375-410 | The result is `Predict`'s. On success exactly one record is appended at the end and earlier records are unchanged. On any failure the history is unchanged. |
| History.Session.ClearPredictions | app.py:277-278 | The history becomes empty. |

## Left out

- Page layout, CSS, widgets, the sidebar HTML and number formatting (app.py:30-179, 209-231, 245-273, 304-332, 412-430) are presentation.
- Loading the model, the scaler and the medians table with pickle and pandas is file I/O. A table or scaler that failed to load is `None`. The model is always present, because a failed model load stops the page before any prediction.
- `scaler.transform` and `model.predict` are third-party numerics. They are opaque function parameters that either return values or fail.
- Floating point is not modelled: prices, the ratio and bathrooms are exact reals. So rounding and NaN (and NaN's effect on `min`/`max`) are not captured. The integer 200 and a float 200.0 are the same value here.
- The bathrooms option is taken as a number, so the `float(...)` parsing of the fixed option strings is left out.
- DataFrame mechanics beyond column order are left out. The medians table is a sequence of (city code, condition, price) rows. A table lacking those columns, which would raise, is not modelled.
- `st.rerun`, the session-state plumbing and the "Select an option" placeholder are left out. The history is an explicit `Session` object. The empty-history guard (app.py:213) is `Select` returning `None`.
- Concurrency is left out: one session serves one request at a time, so there is none.
