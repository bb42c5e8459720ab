/**
 * How much a receipt is worth: laws of `_score` in wrasse/engine.py that say what a risk is
 * without saying how it is computed, for one receipt and for whole histories.
 */
module Weighing {
  import opened Constants
  import opened Numeric
  import opened Engine

  /** The receipt is about the counterparty and is of the dimension's own kind. */
  predicate Speaks(p: Pricing, d: Dimension, row: Row) {
    p.About() in SubjectsOf(row.kind) && row.kind == d.source
  }

  /** What one receipt is worth under one dimension alone. */
  function Worth(p: Pricing, d: Dimension, row: Row): real {
    RawRisk(p, [d], [row])
  }

  // ---------------------------------------------------------------------------------------
  // One receipt under one dimension
  // ---------------------------------------------------------------------------------------

  lemma {:induction false} OneOfEach(p: Pricing, d: Dimension, row: Row)
    ensures Worth(p, d, row) == RowRisk(p, [d], row) == Contribution(p, row, d)
    ensures ContributingIds(p, [d], [row]) == if Worth(p, d, row) == 0.0 then {} else {row.id}
  {
    assert [d][..0] == [] && [row][..0] == [];
    assert RowRisk(p, [], row) == 0.0 && RawRisk(p, [d], []) == 0.0;
    assert Contributes(p, [d], row) <==> Contribution(p, row, [d][0]) != 0.0;
    assert [row][0] == row;
  }

  /** A receipt about the wrong side, or of another kind, is worth nothing and is not cited. */
  lemma SilenceIsWorthNothing(p: Pricing, d: Dimension, row: Row)
    requires !Speaks(p, d, row)
    ensures Worth(p, d, row) == 0.0 && ContributingIds(p, [d], [row]) == {}
  {
    OneOfEach(p, d, row);
  }

  /**
   * Whose conduct counts. A release speaks to both sides; a provider that never delivered is held
   * against it by the buyer alone, and a buyer that made it wait by the provider alone. A broken
   * promise raises risk and a kept one lowers it.
   */
  lemma WhoseConductCounts(p: Pricing, d: Dimension, row: Row)
    requires DimensionInDomain(d) && 0.0 < d.severity && 0.0 < d.confidence && row.kind == d.source
    requires p.BuyerPricing? ==> 0.0 < p.profile.riskWeight
    ensures row.kind.TimeoutClaimed? ==> if p.BuyerPricing? then Worth(p, d, row) > 0.0 else Worth(p, d, row) == 0.0
    ensures row.kind.ClaimedAfterDelay? ==> if p.ProviderPricing? then Worth(p, d, row) > 0.0 else Worth(p, d, row) == 0.0
    ensures row.kind.ReleasedByBuyer? ==> Worth(p, d, row) < 0.0
    ensures row.kind.Unrecognised? ==> Worth(p, d, row) == 0.0
  {
    TheFactors(p, d, row);
    Positive(d.severity, d.confidence, p.Relevance(d), p.Weight());
  }

  lemma Positive(a: real, b: real, c: real, e: real)
    requires 0.0 < a && 0.0 < b && 0.0 < c && 0.0 < e
    ensures 0.0 < a * b * c * e && -(a * b) * c * e < 0.0
  {
    assert 0.0 < a * b;
    assert 0.0 < a * b * c;
    assert -(a * b) * c * e == -(a * b * c * e);
  }

  /** Nor is one whose dimension has no severity or no confidence, or whose reader gives it no weight. */
  lemma ZeroIsWorthNothing(p: Pricing, d: Dimension, row: Row)
    requires d.severity == 0.0 || d.confidence == 0.0 || (p.BuyerPricing? && p.profile.riskWeight == 0.0)
    ensures Worth(p, d, row) == 0.0 && ContributingIds(p, [d], [row]) == {}
  {
    OneOfEach(p, d, row);
    ZeroIn(d.severity, d.confidence, p.Relevance(d), p.Weight());
    ZeroIn(-d.severity, d.confidence, p.Relevance(d), p.Weight());
  }

  lemma ZeroIn(a: real, b: real, c: real, e: real)
    requires a == 0.0 || b == 0.0 || e == 0.0
    ensures a * b * c * e == 0.0
  {
    assert a == 0.0 || b == 0.0 ==> a * b == 0.0;
  }

  lemma TheFactors(p: Pricing, d: Dimension, row: Row)
    ensures var size := d.severity * d.confidence;
      Worth(p, d, row) == if Speaks(p, d, row) then (if d.negative then size else -size) * p.Relevance(d) * p.Weight() else 0.0
    ensures forall severity, confidence :: p.Relevance(d.(severity := severity, confidence := confidence)) == p.Relevance(d)
  {
    OneOfEach(p, d, row);
  }

  /** Worth is proportional to severity, ... */
  lemma WorthFollowsSeverity(p: Pricing, d: Dimension, row: Row, times: real)
    ensures Worth(p, d.(severity := times * d.severity), row) == times * Worth(p, d, row)
  {
    var other := d.(severity := times * d.severity);
    TheFactors(p, d, row);
    TheFactors(p, other, row);
    Factor(times, d.severity, d.confidence, p.Relevance(d), p.Weight());
  }

  /** ... to confidence, ... */
  lemma WorthFollowsConfidence(p: Pricing, d: Dimension, row: Row, times: real)
    ensures Worth(p, d.(confidence := times * d.confidence), row) == times * Worth(p, d, row)
  {
    var other := d.(confidence := times * d.confidence);
    TheFactors(p, d, row);
    TheFactors(p, other, row);
    Factor(times, d.severity, d.confidence, p.Relevance(d), p.Weight());
  }

  function Weighted(p: Pricing, times: real): Pricing
    requires p.BuyerPricing?
  {
    p.(profile := p.profile.(riskWeight := times * p.profile.riskWeight))
  }

  /** ... and to the profile's weight. */
  lemma WorthFollowsWeight(p: Pricing, d: Dimension, row: Row, times: real)
    requires p.BuyerPricing?
    ensures Worth(Weighted(p, times), d, row) == times * Worth(p, d, row)
  {
    OneOfEach(p, d, row);
    OneOfEach(Weighted(p, times), d, row);
    assert Weighted(p, times).Relevance(d) == p.Relevance(d);
    Factor(times, d.severity, d.confidence, p.Relevance(d), p.Weight());
  }

  lemma Factor(times: real, a: real, b: real, c: real, e: real)
    ensures (times * a) * b * c * e == times * (a * b * c * e)
    ensures a * (times * b) * c * e == times * (a * b * c * e)
    ensures a * b * c * (times * e) == times * (a * b * c * e)
    ensures -((times * a) * b) * c * e == times * (-(a * b) * c * e)
    ensures -(a * (times * b)) * c * e == times * (-(a * b) * c * e)
    ensures -(a * b) * c * (times * e) == times * (-(a * b) * c * e)
  {
  }

  /** To a buyer, a dimension that touches its task counts exactly three times one that does not. */
  lemma RelevanceIsThreefold(p: Pricing, near: Dimension, far: Dimension, row: Row)
    requires p.BuyerPricing? && far == near.(appliesWhen := far.appliesWhen)
    requires p.profile.contexts * near.appliesWhen != {} && p.profile.contexts * far.appliesWhen == {}
    ensures Worth(p, near, row) == 3.0 * Worth(p, far, row)
  {
    OneOfEach(p, near, row);
    OneOfEach(p, far, row);
    assert p.Relevance(near) == 3.0 * p.Relevance(far);
    Relevant(near.severity * near.confidence, p.Relevance(far), p.Weight());
  }

  lemma Relevant(x: real, c: real, e: real)
    ensures x * (3.0 * c) * e == 3.0 * (x * c * e)
    ensures (-x) * (3.0 * c) * e == 3.0 * ((-x) * c * e)
  {
  }

  /** To a provider no dimension is nearer than another. */
  lemma ToAProviderAllAreNear(p: Pricing, near: Dimension, far: Dimension, row: Row)
    requires p.ProviderPricing? && far == near.(appliesWhen := far.appliesWhen)
    ensures Worth(p, near, row) == Worth(p, far, row)
  {
    OneOfEach(p, near, row);
    OneOfEach(p, far, row);
  }

  /**
   * The unit of risk. A provider takes a receipt of full severity and confidence for exactly the
   * whole of it, and a buyer of weight one takes a receipt that touches its task for half as much
   * again: upwards for a broken promise, downwards for a kept one.
   */
  lemma TheUnitOfRisk(p: Pricing, d: Dimension, row: Row)
    requires Speaks(p, d, row) && d.severity == 1.0 && d.confidence == 1.0
    requires p.BuyerPricing? ==> p.profile.riskWeight == 1.0 && p.profile.contexts * d.appliesWhen != {}
    ensures Worth(p, d, row) == (if d.negative then 1.0 else -1.0) * (if p.BuyerPricing? then 1.5 else 1.0)
  {
    OneOfEach(p, d, row);
  }

  // ---------------------------------------------------------------------------------------
  // Whole histories
  // ---------------------------------------------------------------------------------------

  /** A receipt's risk is the sum of what it is worth under each dimension. */
  lemma {:induction false} DimensionsAddUp(p: Pricing, dims: seq<Dimension>, more: seq<Dimension>, row: Row)
    ensures RowRisk(p, dims + more, row) == RowRisk(p, dims, row) + RowRisk(p, more, row)
  {
    if more == [] {
      assert dims + more == dims;
    } else {
      var n := |more| - 1;
      DimensionsAddUp(p, dims, more[..n], row);
      assert (dims + more)[..|dims| + n] == dims + more[..n];
    }
  }

  /** A history's risk, before it is clamped, is the sum of its parts. */
  lemma {:induction false} HistoriesAddUp(p: Pricing, dims: seq<Dimension>, rows: seq<Row>, more: seq<Row>)
    ensures RawRisk(p, dims, rows + more) == RawRisk(p, dims, rows) + RawRisk(p, dims, more)
  {
    if more == [] {
      assert rows + more == rows;
    } else {
      var n := |more| - 1;
      HistoriesAddUp(p, dims, rows, more[..n]);
      assert (rows + more)[..|rows| + n] == rows + more[..n];
    }
  }

  /** What a side did itself never moves what it asks: its own failures are in its memory and worth nothing to it. */
  lemma {:induction false} OwnConductMovesNothing(p: Pricing, dims: seq<Dimension>, rows: seq<Row>, row: Row)
    requires if p.ProviderPricing? then row.kind.TimeoutClaimed? else row.kind.ClaimedAfterDelay?
    ensures RawRisk(p, dims, rows + [row]) == RawRisk(p, dims, rows)
    ensures Committed(p, dims, rows + [row]) == Committed(p, dims, rows)
  {
    assert (rows + [row])[..|rows|] == rows;
    SilentRowRisk(p, dims, row);
  }

  lemma {:induction false} OneAmongThem(p: Pricing, dims: seq<Dimension>, before: seq<Row>, one: Row, after: seq<Row>)
    ensures RawRisk(p, dims, before + [one] + after) == RawRisk(p, dims, before + after) + RawRisk(p, dims, [one])
  {
    HistoriesAddUp(p, dims, before + [one], after);
    HistoriesAddUp(p, dims, before, [one]);
    HistoriesAddUp(p, dims, before, after);
  }

  /** The order receipts are recalled in moves nothing: two histories of the same receipts are worth the same. */
  lemma {:induction false} OrderIsWorthNothing(p: Pricing, dims: seq<Dimension>, rows: seq<Row>, other: seq<Row>)
    requires multiset(rows) == multiset(other)
    ensures RawRisk(p, dims, rows) == RawRisk(p, dims, other)
    decreases |rows|
  {
    if rows == [] {
      assert |multiset(other)| == 0;
    } else {
      var n := |rows| - 1;
      var last := rows[n];
      assert last in multiset(other);
      var k :| 0 <= k < |other| && other[k] == last;
      var before, after := other[..k], other[k + 1..];
      assert other == before + [last] + after && rows == rows[..n] + [last];
      LessOne(rows[..n], last, before, after);
      OrderIsWorthNothing(p, dims, rows[..n], before + after);
      OneAmongThem(p, dims, before, last, after);
      HistoriesAddUp(p, dims, rows[..n], [last]);
    }
  }

  /** Two sequences of the same things, less one of each, are still of the same things. */
  lemma LessOne(front: seq<Row>, last: Row, before: seq<Row>, after: seq<Row>)
    requires multiset(front + [last]) == multiset(before + [last] + after)
    ensures multiset(front) == multiset(before + after)
  {
    var fewer, others := multiset(front), multiset(before + after);
    assert multiset(before + [last] + after) == others + multiset{last};
    assert fewer == fewer + multiset{last} - multiset{last} == others;
  }

  /** A history of so many receipts of one kind is worth that many times one of them, up to the clamp. */
  lemma {:induction false} SoManyAreWorthSoMuch(p: Pricing, d: Dimension, rows: seq<Row>, one: Row)
    requires Speaks(p, d, one) && forall i :: 0 <= i < |rows| ==> rows[i].kind == one.kind
    ensures RawRisk(p, [d], rows) == |rows| as real * Worth(p, d, one)
  {
    if rows != [] {
      var n := |rows| - 1;
      SoManyAreWorthSoMuch(p, d, rows[..n], one);
      HistoriesAddUp(p, [d], rows[..n], [rows[n]]);
      assert rows == rows[..n] + [rows[n]];
      OneOfEach(p, d, rows[n]);
      OneOfEach(p, d, one);
      OneMore(n, Worth(p, d, one));
    }
  }

  lemma OneMore(n: nat, x: real)
    ensures (n + 1) as real * x == n as real * x + x
  {
  }

  /** Risk is that sum, kept between nothing and the whole. */
  lemma {:induction false} SoManyReceiptsRisk(p: Pricing, d: Dimension, rows: seq<Row>, one: Row)
    requires Speaks(p, d, one) && forall i :: 0 <= i < |rows| ==> rows[i].kind == one.kind
    ensures var risk := ClampRisk(RawRisk(p, [d], rows)); var sum := |rows| as real * Worth(p, d, one);
      && (sum <= 0.0 ==> risk == 0.0) && (0.0 <= sum <= 1.0 ==> risk == sum) && (1.0 <= sum ==> risk == 1.0)
  {
    SoManyAreWorthSoMuch(p, d, rows, one);
  }

  /** A receipt is cited exactly when it is worth something under some dimension. */
  lemma CitedIff(p: Pricing, dims: seq<Dimension>, rows: seq<Row>, id: nat)
    ensures id in ContributingIds(p, dims, rows) <==>
      exists i, j :: 0 <= i < |rows| && 0 <= j < |dims| && rows[i].id == id && Worth(p, dims[j], rows[i]) != 0.0
  {
    forall i, j | 0 <= i < |rows| && 0 <= j < |dims|
      ensures Worth(p, dims[j], rows[i]) == Contribution(p, rows[i], dims[j])
    {
      OneOfEach(p, dims[j], rows[i]);
    }
    if id in ContributingIds(p, dims, rows) {
      var i :| 0 <= i < |rows| && Contributes(p, dims, rows[i]) && rows[i].id == id;
      var j :| 0 <= j < |dims| && Contribution(p, rows[i], dims[j]) != 0.0;
      assert Worth(p, dims[j], rows[i]) != 0.0;
    }
  }
}
