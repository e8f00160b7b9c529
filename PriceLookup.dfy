/**
 * The expected price per square foot of a (city code, condition) pair, read
 * from the city-condition medians table, with a flat fallback when the table
 * could not be loaded or holds no row for the pair.
 */
module PriceLookup {

  import opened Wrappers

  /** One row of the medians table. */
  datatype MedianRow = MedianRow(city: int, condition: int, expectedPricePerSqft: real)

  /** The price per square foot used when the table gives none. */
  const DefaultPricePerSqft: real := 200.0

  /** The row-selection mask: the row is for this city code and this condition. */
  predicate Matches(row: MedianRow, city: int, condition: int)
  {
    row.city == city && row.condition == condition
  }

  /** No row of `rows` is for this key. */
  predicate NoMatch(rows: seq<MedianRow>, city: int, condition: int)
  {
    forall i :: 0 <= i < |rows| ==> !Matches(rows[i], city, condition)
  }

  /** Index `k` holds the first row of `rows` that matches the key. */
  predicate IsFirstMatch(rows: seq<MedianRow>, k: int, city: int, condition: int)
  {
    0 <= k < |rows| && Matches(rows[k], city, condition) &&
    forall j :: 0 <= j < k ==> !Matches(rows[j], city, condition)
  }

  /** The rows that match the key, in table order: the filtered frame. */
  function Filter(rows: seq<MedianRow>, city: int, condition: int): (matching: seq<MedianRow>)
    ensures forall i :: 0 <= i < |matching| ==> Matches(matching[i], city, condition)
    ensures |matching| <= |rows|
    ensures |matching| == 0 <==> NoMatch(rows, city, condition)
  {
    if |rows| == 0 then []
    else if Matches(rows[0], city, condition) then [rows[0]] + Filter(rows[1..], city, condition)
    else
      var rest := Filter(rows[1..], city, condition);
      assert forall i :: 1 <= i < |rows| ==> rows[i] == rows[1..][i - 1];
      rest
  }

  /** The head of the filtered frame is the first matching row of the table. */
  lemma {:induction false} FilterStartsWithFirstMatch(rows: seq<MedianRow>, k: int, city: int, condition: int)
    requires IsFirstMatch(rows, k, city, condition)
    ensures |Filter(rows, city, condition)| > 0 && Filter(rows, city, condition)[0] == rows[k]
  {
    if k > 0 {
      assert IsFirstMatch(rows[1..], k - 1, city, condition) by {
        assert forall j :: 0 <= j < k - 1 ==> rows[1..][j] == rows[j + 1];
      }
      FilterStartsWithFirstMatch(rows[1..], k - 1, city, condition);
    }
  }

  /**
   * `calculate_expected_price_per_sqft_single`: the price of the first row
   * for (city, condition), or the default when the table is missing (None)
   * or has no such row.
   */
  function ExpectedPricePerSqft(city: int, condition: int, medians: Option<seq<MedianRow>>): (price: real)
    ensures medians.None? ==> price == DefaultPricePerSqft
    ensures medians.Some? && NoMatch(medians.value, city, condition) ==> price == DefaultPricePerSqft
    ensures medians.Some? ==>
      forall k :: IsFirstMatch(medians.value, k, city, condition) ==> price == medians.value[k].expectedPricePerSqft
  {
    if medians.None? then DefaultPricePerSqft
    else
      var matching := Filter(medians.value, city, condition);
      if |matching| > 0 then
        FirstMatchPrice(medians.value, city, condition);
        matching[0].expectedPricePerSqft
      else DefaultPricePerSqft
  }

  /** Every first-match index gives the price at the head of the filtered frame. */
  lemma FirstMatchPrice(rows: seq<MedianRow>, city: int, condition: int)
    ensures forall k :: IsFirstMatch(rows, k, city, condition) ==>
              |Filter(rows, city, condition)| > 0 && Filter(rows, city, condition)[0] == rows[k]
  {
    forall k | IsFirstMatch(rows, k, city, condition)
      ensures |Filter(rows, city, condition)| > 0 && Filter(rows, city, condition)[0] == rows[k]
    {
      FilterStartsWithFirstMatch(rows, k, city, condition);
    }
  }
}
