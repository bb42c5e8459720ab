/** The receipts that actually moved a number: `_minimal_causal_set` in wrasse/engine.py. */
module CausalSet {
  import opened Numeric
  import opened Engine

  // ---------------------------------------------------------------------------------------
  // Sorted lists of receipt ids
  // ---------------------------------------------------------------------------------------

  function Ids(keep: seq<nat>): set<nat> {
    set i | 0 <= i < |keep| :: keep[i]
  }

  predicate Increasing(keep: seq<nat>) {
    forall i, j :: 0 <= i < j < |keep| ==> keep[i] < keep[j]
  }

  predicate IsLeast(m: nat, s: set<nat>) {
    m in s && forall x :: x in s ==> m <= x
  }

  lemma LeastExists(s: set<nat>)
    requires s != {}
    ensures exists m: nat :: IsLeast(m, s)
  {
    var x :| x in s;
    var rest := s - {x};
    if rest == {} {
      assert s == {x};
      assert IsLeast(x, s);
    } else {
      LeastExists(rest);
      var m: nat :| IsLeast(m, rest);
      LeastOfOneMore(m, rest, x);
      assert s == rest + {x};
    }
  }

  lemma LeastOfOneMore(m: nat, rest: set<nat>, x: nat)
    requires IsLeast(m, rest)
    ensures IsLeast(if x <= m then x else m, rest + {x})
  {
  }

  function SortedIds(s: set<nat>): (r: seq<nat>)
    ensures Increasing(r) && Ids(r) == s
  {
    if s == {} then []
    else
      LeastExists(s);
      var m: nat :| IsLeast(m, s);
      var rest := SortedIds(s - {m});
      IncreasingCons(m, rest);
      [m] + rest
  }

  lemma IncreasingCons(m: nat, rest: seq<nat>)
    requires Increasing(rest) && forall x :: x in Ids(rest) ==> m < x
    ensures Increasing([m] + rest) && Ids([m] + rest) == {m} + Ids(rest)
  {
    IdsCons(m, rest);
    assert forall i :: 0 <= i < |rest| ==> rest[i] in Ids(rest);
    assert forall i :: 0 < i < |[m] + rest| ==> ([m] + rest)[i] == rest[i - 1];
  }

  lemma IdsCons(m: nat, rest: seq<nat>)
    ensures Ids([m] + rest) == {m} + Ids(rest)
  {
    var all := [m] + rest;
    assert all[0] == m;
    assert forall i :: 0 <= i < |rest| ==> all[i + 1] == rest[i];
    forall x | x in Ids(all) ensures x in {m} + Ids(rest) {
      var i :| 0 <= i < |all| && all[i] == x;
      assert i > 0 ==> rest[i - 1] == x;
    }
    forall x | x in Ids(rest) ensures x in Ids(all) {
      var i :| 0 <= i < |rest| && rest[i] == x;
      assert all[i + 1] == x;
    }
  }

  /** `[item for item in keep if item != identifier]`. */
  function Without(keep: seq<nat>, id: nat): (r: seq<nat>)
    ensures |r| <= |keep|
    ensures |r| == |keep| ==> r == keep
  {
    if keep == [] then []
    else if keep[0] == id then Without(keep[1..], id)
    else [keep[0]] + Without(keep[1..], id)
  }

  lemma {:induction false} WithoutIds(keep: seq<nat>, id: nat)
    ensures Ids(Without(keep, id)) == Ids(keep) - {id}
    ensures Increasing(keep) ==> Increasing(Without(keep, id))
  {
    if keep != [] {
      var tail := keep[1..];
      assert keep == [keep[0]] + tail;
      IdsCons(keep[0], tail);
      WithoutIds(tail, id);
      if Increasing(keep) {
        IncreasingTail(keep);
        if keep[0] != id {
          IncreasingCons(keep[0], Without(tail, id));
        }
      } else if keep[0] != id {
        IdsCons(keep[0], Without(tail, id));
      }
    }
  }

  lemma IncreasingTail(keep: seq<nat>)
    requires keep != [] && Increasing(keep)
    ensures Increasing(keep[1..]) && forall x :: x in Ids(keep[1..]) ==> keep[0] < x
  {
  }

  // ---------------------------------------------------------------------------------------
  // Pricing part of a history
  // ---------------------------------------------------------------------------------------

  function Retain(rows: seq<Row>, ids: set<nat>): seq<Row> {
    if rows == [] then []
    else
      var last := rows[|rows| - 1];
      Retain(rows[..|rows| - 1], ids) + (if last.id in ids then [last] else [])
  }

  /** The sum over the retained receipts, without building them. */
  function RiskOf(p: Pricing, dims: seq<Dimension>, rows: seq<Row>, ids: set<nat>): real {
    if rows == [] then 0.0
    else
      var last := rows[|rows| - 1];
      RiskOf(p, dims, rows[..|rows| - 1], ids) + (if last.id in ids then RowRisk(p, dims, last) else 0.0)
  }

  lemma {:induction false} RetainedRisk(p: Pricing, dims: seq<Dimension>, rows: seq<Row>, ids: set<nat>)
    ensures RawRisk(p, dims, Retain(rows, ids)) == RiskOf(p, dims, rows, ids)
  {
    if rows != [] {
      var n := |rows| - 1;
      var before := Retain(rows[..n], ids);
      RetainedRisk(p, dims, rows[..n], ids);
      assert (before + [rows[n]])[..|before|] == before;
      assert before + [] == before;
    }
  }

  /** Receipts that contribute to nothing can be left out without moving the sum. */
  lemma {:induction false} RetainContributing(p: Pricing, dims: seq<Dimension>, rows: seq<Row>, ids: set<nat>)
    requires forall i :: 0 <= i < |rows| && Contributes(p, dims, rows[i]) ==> rows[i].id in ids
    ensures RiskOf(p, dims, rows, ids) == RawRisk(p, dims, rows)
  {
    if rows != [] {
      var n := |rows| - 1;
      RetainContributing(p, dims, rows[..n], ids);
      if rows[n].id !in ids {
        SilentRowRisk(p, dims, rows[n]);
      }
    }
  }

  /** Leaving one receipt out takes exactly its own contribution away. */
  lemma {:induction false} DropOne(p: Pricing, dims: seq<Dimension>, rows: seq<Row>, ids: set<nat>, k: nat)
    requires DistinctIds(rows) && k < |rows| && rows[k].id in ids
    ensures RiskOf(p, dims, rows, ids - {rows[k].id}) == RiskOf(p, dims, rows, ids) - RowRisk(p, dims, rows[k])
  {
    var n := |rows| - 1;
    var id := rows[k].id;
    assert DistinctIds(rows[..n]);
    if k < n {
      DropOne(p, dims, rows[..n], ids, k);
    } else {
      DropAbsent(p, dims, rows[..n], ids, id);
    }
  }

  lemma {:induction false} DropAbsent(p: Pricing, dims: seq<Dimension>, rows: seq<Row>, ids: set<nat>, id: nat)
    requires !Holds(rows, id)
    ensures RiskOf(p, dims, rows, ids - {id}) == RiskOf(p, dims, rows, ids)
  {
    if rows != [] {
      var n := |rows| - 1;
      assert forall i :: 0 <= i < n ==> rows[..n][i] == rows[i];
      DropAbsent(p, dims, rows[..n], ids, id);
    }
  }

  lemma {:induction false} AllReliefs(p: Pricing, dims: seq<Dimension>, rows: seq<Row>, ids: set<nat>)
    requires forall i :: 0 <= i < |rows| && rows[i].id in ids ==> RowRisk(p, dims, rows[i]) <= 0.0
    ensures RiskOf(p, dims, rows, ids) <= 0.0
  {
    if rows != [] {
      var n := |rows| - 1;
      assert forall i :: 0 <= i < n ==> rows[..n][i] == rows[i];
      AllReliefs(p, dims, rows[..n], ids);
    }
  }

  // ---------------------------------------------------------------------------------------
  // The search
  // ---------------------------------------------------------------------------------------

  /** Whether the history cut down to `ids` still gives the numbers of the whole. */
  predicate Explains(committed: seq<Row> -> Numbers, rows: seq<Row>, ids: set<nat>) {
    committed(Retain(rows, ids)) == committed(rows)
  }

  /** One pass: each candidate in turn is dropped if the numbers stay the same without it. */
  function Sweep(committed: seq<Row> -> Numbers, rows: seq<Row>, keep: seq<nat>, todo: seq<nat>): (r: seq<nat>)
    ensures |r| <= |keep| && (|r| == |keep| ==> r == keep)
    decreases |todo|
  {
    if todo == [] then keep
    else
      var trial := Without(keep, todo[0]);
      Sweep(committed, rows, if Explains(committed, rows, Ids(trial)) then trial else keep, todo[1..])
  }

  /** Passes, until a whole pass removes nothing. */
  function FixedPoint(committed: seq<Row> -> Numbers, rows: seq<Row>, keep: seq<nat>): seq<nat>
    decreases |keep|
  {
    var next := Sweep(committed, rows, keep, keep);
    if next == keep then keep else FixedPoint(committed, rows, next)
  }

  /** A pass over `snapshot` that has tried the first `i` and kept `kept`. */
  ghost predicate Sweeping(committed: seq<Row> -> Numbers, rows: seq<Row>, snapshot: seq<nat>, kept: seq<nat>, i: nat) {
    && i <= |snapshot| && Increasing(kept)
    && |kept| <= |snapshot| && (|kept| == |snapshot| ==> kept == snapshot)
    && Sweep(committed, rows, kept, snapshot[i..]) == Sweep(committed, rows, snapshot, snapshot)
    && (forall k :: i <= k < |snapshot| ==> snapshot[k] in Ids(kept))
  }

  lemma {:induction false} SweepingStep(committed: seq<Row> -> Numbers, rows: seq<Row>, snapshot: seq<nat>, kept: seq<nat>, i: nat)
    requires Sweeping(committed, rows, snapshot, kept, i) && i < |snapshot| && Increasing(snapshot)
    ensures var trial := Without(kept, snapshot[i]);
      && |trial| < |kept|
      && Sweeping(committed, rows, snapshot, if Explains(committed, rows, Ids(trial)) then trial else kept, i + 1)
  {
    assert snapshot[i..][0] == snapshot[i] && snapshot[i..][1..] == snapshot[i + 1..];
    WithoutIds(kept, snapshot[i]);
  }

  method MinimalCausalSet(rows: seq<Row>, candidates: set<nat>, committed: seq<Row> -> Numbers)
    returns (kept: seq<nat>)
    ensures kept == FixedPoint(committed, rows, SortedIds(candidates))
  {
    var baseline := committed(rows);
    kept := SortedIds(candidates);
    var changed := true;
    while changed
      invariant FixedPoint(committed, rows, kept) == FixedPoint(committed, rows, SortedIds(candidates))
      invariant Increasing(kept)
      invariant !changed ==> Sweep(committed, rows, kept, kept) == kept
      decreases |kept|, changed
    {
      changed := false;
      var snapshot := kept;
      for i := 0 to |snapshot|
        invariant Sweeping(committed, rows, snapshot, kept, i)
        invariant changed <==> |kept| < |snapshot|
      {
        SweepingStep(committed, rows, snapshot, kept, i);
        var trial := Without(kept, snapshot[i]);
        if committed(Retain(rows, Ids(trial))) == baseline {
          kept := trial;
          changed := true;
        }
      }
    }
  }

  /** The pass keeps the numbers, and only ever takes ids away. */
  lemma {:induction false} SweepPreserves(committed: seq<Row> -> Numbers, rows: seq<Row>, keep: seq<nat>, todo: seq<nat>)
    requires Explains(committed, rows, Ids(keep)) && Increasing(keep)
    ensures var r := Sweep(committed, rows, keep, todo);
      Explains(committed, rows, Ids(r)) && Increasing(r) && Ids(r) <= Ids(keep)
    decreases |todo|
  {
    if todo != [] {
      var trial := Without(keep, todo[0]);
      WithoutIds(keep, todo[0]);
      SweepPreserves(committed, rows, if Explains(committed, rows, Ids(trial)) then trial else keep, todo[1..]);
    }
  }

  /** A pass that removes nothing has tried every survivor and found each one load-bearing. */
  lemma {:induction false} IdlePassIsMinimal(committed: seq<Row> -> Numbers, rows: seq<Row>, keep: seq<nat>, todo: seq<nat>)
    requires Ids(todo) <= Ids(keep)
    requires Sweep(committed, rows, keep, todo) == keep
    ensures forall id :: id in Ids(todo) ==> !Explains(committed, rows, Ids(keep) - {id})
    decreases |todo|
  {
    if todo != [] {
      assert todo == [todo[0]] + todo[1..];
      IdsCons(todo[0], todo[1..]);
      WithoutIds(keep, todo[0]);
      assert todo[0] in Ids(keep) && todo[0] !in Ids(Without(keep, todo[0]));
      IdlePassIsMinimal(committed, rows, keep, todo[1..]);
    }
  }

  lemma {:induction false} FixedPointIsMinimal(committed: seq<Row> -> Numbers, rows: seq<Row>, keep: seq<nat>)
    requires Explains(committed, rows, Ids(keep)) && Increasing(keep)
    ensures var r := FixedPoint(committed, rows, keep);
      && Increasing(r)
      && Ids(r) <= Ids(keep)
      && Explains(committed, rows, Ids(r))
      && forall id :: id in Ids(r) ==> !Explains(committed, rows, Ids(r) - {id})
    decreases |keep|
  {
    var next := Sweep(committed, rows, keep, keep);
    if next == keep {
      IdlePassIsMinimal(committed, rows, keep, keep);
    } else {
      SweepPreserves(committed, rows, keep, keep);
      FixedPointIsMinimal(committed, rows, next);
    }
  }

  // ---------------------------------------------------------------------------------------
  // Terms no receipt moved
  // ---------------------------------------------------------------------------------------

  /** Because every number is monotone in risk, the risks that leave the cold-start terms alone reach down to zero. */
  lemma ColdIsDownwardClosed(p: Pricing, low: real, high: real)
    requires PricingInDomain(p) && 0.0 <= low <= high
    requires NumbersAt(p, high) == NumbersAt(p, 0.0)
    ensures NumbersAt(p, low) == NumbersAt(p, 0.0)
  {
    NumbersMonotone(p, 0.0, low);
    NumbersMonotone(p, low, high);
    if p.BuyerPricing? {
      WindowMonotone(p.profile.windowBufferSeconds as real, p.baseWindow, 0.0, low);
      WindowMonotone(p.profile.windowBufferSeconds as real, p.baseWindow, low, high);
    }
  }

  /** Leaving the cold-start terms takes more risk than there was, and some risk at all. */
  lemma {:induction false} ColdRisks(p: Pricing, dims: seq<Dimension>, rows: seq<Row>, held: set<nat>, fewer: set<nat>)
    requires PricingInDomain(p)
    requires Committed(p, dims, Retain(rows, held)) == Committed(p, dims, [])
    requires Committed(p, dims, Retain(rows, fewer)) != Committed(p, dims, [])
    ensures RiskOf(p, dims, rows, fewer) > RiskOf(p, dims, rows, held)
    ensures RiskOf(p, dims, rows, fewer) > 0.0
  {
    RetainedRisk(p, dims, rows, held);
    RetainedRisk(p, dims, rows, fewer);
    assert ClampRisk(RawRisk(p, dims, [])) == 0.0;
    var a, b := ClampRisk(RiskOf(p, dims, rows, fewer)), ClampRisk(RiskOf(p, dims, rows, held));
    if a <= b {
      ColdIsDownwardClosed(p, a, b);
    }
  }

  /** A set in which every receipt is load-bearing for the cold-start terms has no receipts in it. */
  lemma {:induction false} ColdSetIsEmpty(p: Pricing, dims: seq<Dimension>, rows: seq<Row>, held: set<nat>)
    requires PricingInDomain(p) && DistinctIds(rows)
    requires Committed(p, dims, Retain(rows, held)) == Committed(p, dims, [])
    requires forall id :: id in held ==>
      Holds(rows, id) && Committed(p, dims, Retain(rows, held - {id})) != Committed(p, dims, [])
    ensures held == {}
  {
    if x :| x in held {
      forall i | 0 <= i < |rows| && rows[i].id in held
        ensures RowRisk(p, dims, rows[i]) <= 0.0
      {
        ColdRisks(p, dims, rows, held, held - {rows[i].id});
        DropOne(p, dims, rows, held, i);
      }
      AllReliefs(p, dims, rows, held - {x});
      ColdRisks(p, dims, rows, held, held - {x});
      assert false;
    }
  }

  // ---------------------------------------------------------------------------------------
  // What the commitment is computed from
  // ---------------------------------------------------------------------------------------

  /** The closure both engines hand to the search. */
  function Committing(p: Pricing, dims: seq<Dimension>): seq<Row> -> Numbers {
    (subset: seq<Row>) => Committed(p, dims, subset)
  }

  /** `used_evidence_ids` for a history whose repeats have been collapsed. */
  function UsedEvidence(p: Pricing, dims: seq<Dimension>, rows: seq<Row>): seq<nat> {
    FixedPoint(Committing(p, dims), rows, SortedIds(ContributingIds(p, dims, rows)))
  }

  /**
   * What a side says it used is drawn from what contributed, reproduces every number of the
   * whole history, and has no receipt to spare: leaving any one out changes a number.
   */
  lemma {:induction false} CausalSetTheorem(p: Pricing, dims: seq<Dimension>, rows: seq<Row>)
    ensures var used := Ids(UsedEvidence(p, dims, rows));
      && Increasing(UsedEvidence(p, dims, rows))
      && used <= ContributingIds(p, dims, rows)
      && Committed(p, dims, Retain(rows, used)) == Committed(p, dims, rows)
      && forall id :: id in used ==> Committed(p, dims, Retain(rows, used - {id})) != Committed(p, dims, rows)
  {
    var candidates := ContributingIds(p, dims, rows);
    var committed := Committing(p, dims);
    RetainContributing(p, dims, rows, candidates);
    RetainedRisk(p, dims, rows, candidates);
    assert Explains(committed, rows, candidates);
    FixedPointIsMinimal(committed, rows, SortedIds(candidates));
    var used := Ids(UsedEvidence(p, dims, rows));
    forall id | id in used
      ensures Committed(p, dims, Retain(rows, used - {id})) != Committed(p, dims, rows)
    {
      assert !Explains(committed, rows, used - {id});
    }
  }

  /** Nothing is cited exactly when the terms are the ones a stranger would be offered. */
  lemma NothingUsedIffCold(p: Pricing, dims: seq<Dimension>, rows: seq<Row>)
    requires PricingInDomain(p) && DistinctIds(rows)
    ensures UsedEvidence(p, dims, rows) == [] <==> Committed(p, dims, rows) == Committed(p, dims, [])
  {
    CausalSetTheorem(p, dims, rows);
    var kept := UsedEvidence(p, dims, rows);
    var used := Ids(kept);
    if kept == [] {
      RetainNothing(rows);
      assert used == {};
    } else {
      assert kept[0] in used;
      if Committed(p, dims, rows) == Committed(p, dims, []) {
        forall id | id in used ensures Holds(rows, id) {
          assert id in ContributingIds(p, dims, rows);
        }
        ColdSetIsEmpty(p, dims, rows, used);
      }
    }
  }

  lemma {:induction false} RetainNothing(rows: seq<Row>)
    ensures Retain(rows, {}) == []
  {
    if rows != [] {
      RetainNothing(rows[..|rows| - 1]);
    }
  }
}
