/**
 * The investment comparison of the sidebar: the lowest-priced or the
 * highest-priced prediction of the history, the earliest one on a tie.
 */
module Comparator {

  import opened Wrappers
  import opened Prediction

  /** The two investment preferences the sidebar offers. */
  datatype Strategy = MinimalCapital | HighCapital

  /** The prices of the history, in insertion order. */
  function Prices(history: seq<PredictionRecord>): (prices: seq<real>)
    ensures |prices| == |history|
    ensures forall i :: 0 <= i < |history| ==> prices[i] == history[i].price
  {
    seq(|history|, i requires 0 <= i < |history| => history[i].price)
  }

  /** `min`: an element no larger than any other. */
  function Minimum(s: seq<real>): (m: real)
    requires |s| > 0
    ensures m in s
    ensures forall i :: 0 <= i < |s| ==> m <= s[i]
  {
    if |s| == 1 then s[0]
    else
      var rest := Minimum(s[1..]);
      assert forall i :: 1 <= i < |s| ==> s[i] == s[1..][i - 1];
      if s[0] <= rest then s[0] else rest
  }

  /** `max`: an element no smaller than any other. */
  function Maximum(s: seq<real>): (m: real)
    requires |s| > 0
    ensures m in s
    ensures forall i :: 0 <= i < |s| ==> s[i] <= m
  {
    if |s| == 1 then s[0]
    else
      var rest := Maximum(s[1..]);
      assert forall i :: 1 <= i < |s| ==> s[i] == s[1..][i - 1];
      if rest <= s[0] then s[0] else rest
  }

  /** `list.index`: the position of the first occurrence of `x`. */
  function IndexOf(s: seq<real>, x: real): (k: nat)
    requires x in s
    ensures k < |s| && s[k] == x
    ensures forall j :: 0 <= j < k ==> s[j] != x
  {
    if s[0] == x then 0
    else
      assert x in s[1..] by {
        var i :| 0 <= i < |s| && s[i] == x;
        assert s[1..][i - 1] == x;
      }
      1 + IndexOf(s[1..], x)
  }

  /** Record `k` has a price no other record beats under `strategy`. */
  predicate IsExtremeAt(history: seq<PredictionRecord>, k: int, strategy: Strategy)
    requires 0 <= k < |history|
  {
    match strategy
    case MinimalCapital => forall j :: 0 <= j < |history| ==> history[k].price <= history[j].price
    case HighCapital => forall j :: 0 <= j < |history| ==> history[j].price <= history[k].price
  }

  /**
   * The index of the selected record: `prices.index(min(prices))` or
   * `prices.index(max(prices))`, and None for an empty history, where the
   * sidebar shows no comparison.
   */
  function Select(history: seq<PredictionRecord>, strategy: Strategy): (selected: Option<nat>)
    ensures selected.None? <==> |history| == 0
    ensures selected.Some? ==> selected.value < |history| && IsExtremeAt(history, selected.value, strategy)
    ensures selected.Some? ==>
      forall j :: 0 <= j < selected.value ==> history[j].price != history[selected.value].price
  {
    if |history| == 0 then None
    else
      var prices := Prices(history);
      var best := match strategy
        case MinimalCapital => Minimum(prices)
        case HighCapital => Maximum(prices);
      Some(IndexOf(prices, best))
  }

  /** The selection is the only index that is extreme with no earlier record at the same price. */
  lemma SelectionIsUnique(history: seq<PredictionRecord>, strategy: Strategy, k: int)
    requires 0 <= k < |history| && IsExtremeAt(history, k, strategy)
    requires forall j :: 0 <= j < k ==> history[j].price != history[k].price
    ensures Select(history, strategy) == Some(k)
  {
    var s := Select(history, strategy).value;
    assert history[s].price == history[k].price;
  }

  /** A new record priced strictly below every earlier one becomes the minimal-capital choice. */
  lemma StrictNewMinimumIsSelected(history: seq<PredictionRecord>, record: PredictionRecord)
    requires forall i :: 0 <= i < |history| ==> record.price < history[i].price
    ensures Select(history + [record], MinimalCapital) == Some(|history|)
  {
    var extended := history + [record];
    assert extended[|history|] == record;
    SelectionIsUnique(extended, MinimalCapital, |history|);
  }

  /** A new record priced strictly above every earlier one becomes the high-capital choice. */
  lemma StrictNewMaximumIsSelected(history: seq<PredictionRecord>, record: PredictionRecord)
    requires forall i :: 0 <= i < |history| ==> history[i].price < record.price
    ensures Select(history + [record], HighCapital) == Some(|history|)
  {
    var extended := history + [record];
    assert extended[|history|] == record;
    SelectionIsUnique(extended, HighCapital, |history|);
  }

  /**
   * A new record that does not strictly beat the current choice leaves the
   * choice where it was: on a tie the earlier record wins.
   */
  lemma TieKeepsEarlierSelection(history: seq<PredictionRecord>, record: PredictionRecord, strategy: Strategy)
    requires |history| > 0
    requires strategy == MinimalCapital ==> history[Select(history, strategy).value].price <= record.price
    requires strategy == HighCapital ==> record.price <= history[Select(history, strategy).value].price
    ensures Select(history + [record], strategy) == Select(history, strategy)
  {
    var k := Select(history, strategy).value;
    var extended := history + [record];
    assert forall j :: 0 <= j < |history| ==> extended[j] == history[j];
    assert extended[|history|] == record;
    SelectionIsUnique(extended, strategy, k);
  }

  /** Of two records tied at the lowest price, the earlier one is chosen. */
  lemma FirstOfTiedMinimaIsSelected(a: Snapshot, b: Snapshot, c: Snapshot)
    ensures Select([PredictionRecord(300000.0, a), PredictionRecord(150000.0, b), PredictionRecord(150000.0, c)],
                   MinimalCapital) == Some(1)
  {
    var history := [PredictionRecord(300000.0, a), PredictionRecord(150000.0, b), PredictionRecord(150000.0, c)];
    SelectionIsUnique(history, MinimalCapital, 1);
  }
}
