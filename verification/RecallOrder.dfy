/**
 * Evidence is a set: neither the order receipts are recalled in, nor how often, nor how each id is
 * spelled moves anything a side publishes. wrasse/engine.py, from `_unique_by_event_id` to the terms.
 */
module RecallOrder {
  import opened Constants
  import opened Engine
  import opened CausalSet
  import opened Terms
  import opened Weighing

  /** The same receipts, in whatever order. */
  ghost predicate SameReceipts(rows: seq<Row>, other: seq<Row>) {
    DistinctIds(rows) && DistinctIds(other) && forall row :: row in rows <==> row in other
  }

  lemma {:induction false} EachIsThereOnce(rows: seq<Row>, x: Row)
    requires DistinctIds(rows)
    ensures multiset(rows)[x] == if x in rows then 1 else 0
  {
    if rows != [] {
      var n := |rows| - 1;
      assert DistinctIds(rows[..n]);
      EachIsThereOnce(rows[..n], x);
      assert rows == rows[..n] + [rows[n]];
      if x in rows[..n] {
        var i :| 0 <= i < n && rows[i] == x;
        assert rows[i].id != rows[n].id;
      }
    }
  }

  lemma SameReceiptsSameMultiset(rows: seq<Row>, other: seq<Row>)
    requires SameReceipts(rows, other)
    ensures multiset(rows) == multiset(other)
  {
    forall x ensures multiset(rows)[x] == multiset(other)[x] {
      EachIsThereOnce(rows, x);
      EachIsThereOnce(other, x);
    }
  }

  lemma {:induction false} RetainedMembers(rows: seq<Row>, ids: set<nat>)
    ensures forall row :: row in Retain(rows, ids) <==> row in rows && row.id in ids
    ensures DistinctIds(rows) ==> DistinctIds(Retain(rows, ids))
  {
    if rows != [] {
      var n := |rows| - 1;
      RetainedMembers(rows[..n], ids);
      assert rows == rows[..n] + [rows[n]];
      if DistinctIds(rows) {
        assert DistinctIds(rows[..n]);
        forall i | 0 <= i < |Retain(rows[..n], ids)| ensures Retain(rows[..n], ids)[i].id != rows[n].id {
          assert Retain(rows[..n], ids)[i] in rows[..n];
        }
      }
    }
  }

  /** Any part of a history gives the same numbers in any order. */
  lemma {:induction false} SameNumbers(p: Pricing, dims: seq<Dimension>, rows: seq<Row>, other: seq<Row>, ids: set<nat>)
    requires SameReceipts(rows, other)
    ensures Committed(p, dims, rows) == Committed(p, dims, other)
    ensures Committed(p, dims, Retain(rows, ids)) == Committed(p, dims, Retain(other, ids))
  {
    SameReceiptsSameMultiset(rows, other);
    OrderIsWorthNothing(p, dims, rows, other);
    RetainedMembers(rows, ids);
    RetainedMembers(other, ids);
    SameReceiptsSameMultiset(Retain(rows, ids), Retain(other, ids));
    OrderIsWorthNothing(p, dims, Retain(rows, ids), Retain(other, ids));
  }

  lemma {:induction false} SameSweep(
    p: Pricing, dims: seq<Dimension>, rows: seq<Row>, other: seq<Row>, keep: seq<nat>, todo: seq<nat>)
    requires SameReceipts(rows, other)
    ensures Sweep(Committing(p, dims), rows, keep, todo) == Sweep(Committing(p, dims), other, keep, todo)
    decreases |todo|
  {
    if todo != [] {
      var trial := Without(keep, todo[0]);
      SameNumbers(p, dims, rows, other, Ids(trial));
      SameSweep(p, dims, rows, other, if Explains(Committing(p, dims), rows, Ids(trial)) then trial else keep, todo[1..]);
    }
  }

  lemma {:induction false} SameFixedPoint(p: Pricing, dims: seq<Dimension>, rows: seq<Row>, other: seq<Row>, keep: seq<nat>)
    requires SameReceipts(rows, other)
    ensures FixedPoint(Committing(p, dims), rows, keep) == FixedPoint(Committing(p, dims), other, keep)
    decreases |keep|
  {
    SameSweep(p, dims, rows, other, keep, keep);
    var next := Sweep(Committing(p, dims), rows, keep, keep);
    if next != keep {
      SameFixedPoint(p, dims, rows, other, next);
    }
  }

  lemma SameIds(p: Pricing, dims: seq<Dimension>, rows: seq<Row>, other: seq<Row>)
    requires forall row :: row in rows <==> row in other
    ensures RowIds(rows) <= RowIds(other) && ContributingIds(p, dims, rows) <= ContributingIds(p, dims, other)
  {
    forall i | 0 <= i < |rows|
      ensures rows[i].id in RowIds(other)
      ensures Contributes(p, dims, rows[i]) ==> rows[i].id in ContributingIds(p, dims, other)
    {
      assert rows[i] in other;
      var j :| 0 <= j < |other| && other[j] == rows[i];
    }
  }

  lemma SameContributing(p: Pricing, dims: seq<Dimension>, rows: seq<Row>, other: seq<Row>)
    requires SameReceipts(rows, other)
    ensures RowIds(rows) == RowIds(other) && ContributingIds(p, dims, rows) == ContributingIds(p, dims, other)
  {
    SameIds(p, dims, rows, other);
    SameIds(p, dims, other, rows);
  }

  /** What one side cites and names is the same too. */
  lemma SameCitations(p: Pricing, dims: seq<Dimension>, rows: seq<Row>, other: seq<Row>)
    requires SameReceipts(rows, other)
    ensures UsedEvidence(p, dims, rows) == UsedEvidence(p, dims, other)
  {
    SameContributing(p, dims, rows, other);
    SameFixedPoint(p, dims, rows, other, SortedIds(ContributingIds(p, dims, rows)));
  }

  lemma {:induction false} SameRisk(p: Pricing, dims: seq<Dimension>, rows: seq<Row>, other: seq<Row>)
    requires SameReceipts(rows, other)
    ensures RawRisk(p, dims, rows) == RawRisk(p, dims, other)
  {
    SameReceiptsSameMultiset(rows, other);
    OrderIsWorthNothing(p, dims, rows, other);
  }

  /** What the records say, however many times, in whatever order and under whatever spelling. */
  function Stories(evidence: seq<SpelledRow>): set<Row> {
    set i | 0 <= i < |evidence| :: Normalised(evidence[i])
  }

  ghost predicate TwoStories(stories: set<Row>) {
    exists a, b :: a in stories && b in stories && a.id == b.id && a != b
  }

  lemma {:induction false} UniqueHoldsTheStories(evidence: seq<SpelledRow>)
    ensures Unique(evidence).Err? <==> TwoStories(Stories(evidence))
    ensures Unique(evidence).Ok? ==>
      DistinctIds(Unique(evidence).value) && forall row :: row in Unique(evidence).value <==> row in Stories(evidence)
  {
    UniqueIsASet(evidence);
    ConflictIsTwoStories(evidence);
  }

  lemma ConflictIsTwoStories(evidence: seq<SpelledRow>)
    ensures Conflicting(evidence) <==> TwoStories(Stories(evidence))
  {
    if Conflicting(evidence) {
      var i, j :| 0 <= i < j < |evidence| && evidence[i].id == evidence[j].id
        && (evidence[i].kind != evidence[j].kind || evidence[i].story != evidence[j].story);
      assert Normalised(evidence[i]) in Stories(evidence) && Normalised(evidence[j]) in Stories(evidence);
    }
    if TwoStories(Stories(evidence)) {
      var a, b :| a in Stories(evidence) && b in Stories(evidence) && a.id == b.id && a != b;
      var i :| 0 <= i < |evidence| && Normalised(evidence[i]) == a;
      var j :| 0 <= j < |evidence| && Normalised(evidence[j]) == b;
      assert evidence[i].id == evidence[j].id && i != j;
    }
  }

  /** What a side makes of the evidence is a function of what it says alone: the refusal, every number, and every receipt named. */
  lemma {:induction false} EvidenceIsASet(
    profile: Profile, persona: Persona, base: Baseline, dims: seq<Dimension>, evidence: seq<SpelledRow>, other: seq<SpelledRow>)
    requires Stories(evidence) == Stories(other)
    ensures Unique(evidence).Ok? <==> Unique(other).Ok?
    ensures Unique(evidence).Ok? ==>
      && BuyerTermsOn(profile, base, dims, Unique(evidence).value) == BuyerTermsOn(profile, base, dims, Unique(other).value)
      && ProviderTermsOn(persona, base, dims, Unique(evidence).value) == ProviderTermsOn(persona, base, dims, Unique(other).value)
  {
    UniqueHoldsTheStories(evidence);
    UniqueHoldsTheStories(other);
    if Unique(evidence).Ok? {
      SameTerms(profile, persona, base, dims, Unique(evidence).value, Unique(other).value);
    }
  }

  lemma SameTerms(profile: Profile, persona: Persona, base: Baseline, dims: seq<Dimension>, rows: seq<Row>, other: seq<Row>)
    requires SameReceipts(rows, other)
    ensures BuyerTermsOn(profile, base, dims, rows) == BuyerTermsOn(profile, base, dims, other)
    ensures ProviderTermsOn(persona, base, dims, rows) == ProviderTermsOn(persona, base, dims, other)
  {
    var buyer, provider := BuyerPricingFor(profile, base), ProviderPricingFor(persona, base);
    SameContributing(buyer, dims, rows, other);
    SameCitations(buyer, dims, rows, other);
    SameRisk(buyer, dims, rows, other);
    SameCitations(provider, dims, rows, other);
    SameRisk(provider, dims, rows, other);
  }
}
