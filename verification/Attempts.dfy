/**
 * Numbered attempts at a deal action: `_next_attempt_intent` of wrasse/cli.py. An action that
 * mined and reverted may be tried again under a new number; anything else keeps its identity.
 */
module Attempts {
  import opened Chain
  import opened Constants
  import opened Ledger
  import opened LedgerRuns
  import opened Numeric
  import Resolver

  /** The same action, under another number. */
  function Numbered(key: Key, attempt: nat): Key {
    key.(attempt := attempt)
  }

  /** Every earlier attempt is recorded and confirmed reverted. */
  ghost predicate EarlierReverted(rows: Rows, key: Key) {
    key.attempt >= 1
    && forall j :: 1 <= j < key.attempt ==> Numbered(key, j) in rows && rows[Numbered(key, j)].status.ConfirmedReverted?
  }

  ghost function Earlier(key: Key): set<Key>
    decreases key.attempt
  {
    if key.attempt <= 1 then {} else Earlier(Numbered(key, key.attempt - 1)) + {Numbered(key, key.attempt - 1)}
  }

  lemma {:induction false} EarlierCount(rows: Rows, key: Key)
    requires EarlierReverted(rows, key)
    ensures Earlier(key) <= rows.Keys && |Earlier(key)| == key.attempt - 1
    ensures forall k :: k in Earlier(key) ==> k.attempt < key.attempt
    decreases key.attempt
  {
    if key.attempt > 1 {
      var before := Numbered(key, key.attempt - 1);
      assert forall j :: Numbered(before, j) == Numbered(key, j);
      EarlierCount(rows, before);
    }
  }

  /** `_next_attempt_intent`: the first number not confirmed reverted, and the row under it if there is one. */
  method NextAttemptIntent(ledger: TransactionLedger, base: Key) returns (key: Key, row: Option<Row>)
    ensures key == Numbered(base, key.attempt) && EarlierReverted(ledger.rows, key)
    ensures row == if key in ledger.rows then Some(ledger.rows[key]) else None
    ensures row.Some? ==> !row.value.status.ConfirmedReverted?
  {
    var attempt := 1;
    while true
      invariant EarlierReverted(ledger.rows, Numbered(base, attempt))
      decreases |ledger.rows| + 1 - attempt
    {
      key := Numbered(base, attempt);
      row := ledger.Find(key);
      if row.None? || !row.value.status.ConfirmedReverted? {
        return;
      }
      OneMoreReverted(ledger.rows, key);
      EarlierCount(ledger.rows, Numbered(base, attempt + 1));
      SubsetIsNoLarger(Earlier(Numbered(base, attempt + 1)), ledger.rows.Keys);
      attempt := attempt + 1;
    }
  }

  lemma OneMoreReverted(rows: Rows, key: Key)
    requires EarlierReverted(rows, key) && key in rows && rows[key].status.ConfirmedReverted?
    ensures EarlierReverted(rows, Numbered(key, key.attempt + 1))
  {
    var next := Numbered(key, key.attempt + 1);
    forall j | 1 <= j < next.attempt ensures Numbered(next, j) in rows && rows[Numbered(next, j)].status.ConfirmedReverted? {
      assert Numbered(next, j) == Numbered(key, j);
      assert j == key.attempt ==> Numbered(key, j) == key;
    }
  }

  /** An answer from an earlier look is still good: a confirmed revert never changes. */
  lemma RevertedStays(before: Rows, after: Rows, key: Key)
    requires KeepsRows(before, after) && EarlierReverted(before, key)
    ensures EarlierReverted(after, key)
  {
  }

  /** Every record of a run was made under a number looked up somewhere before it. */
  ghost predicate LookedUp(actions: seq<Action>) {
    forall i :: 0 <= i < |actions| && actions[i].Record? ==>
      exists m :: 0 <= m <= i && EarlierReverted(Run(actions[..m]).rows, actions[i].key)
  }

  ghost predicate Contiguous(rows: Rows) {
    forall key :: key in rows ==> EarlierReverted(rows, key)
  }

  lemma {:induction false} NumbersAreContiguous(actions: seq<Action>)
    requires LookedUp(actions)
    ensures Contiguous(Run(actions).rows)
  {
    if actions != [] {
      var shorter := actions[..|actions| - 1];
      var last := actions[|actions| - 1];
      forall i | 0 <= i < |shorter| && shorter[i].Record?
        ensures exists m :: 0 <= m <= i && EarlierReverted(Run(shorter[..m]).rows, shorter[i].key)
      {
        assert actions[i] == shorter[i];
        var m :| 0 <= m <= i && EarlierReverted(Run(actions[..m]).rows, actions[i].key);
        assert shorter[..m] == actions[..m];
      }
      NumbersAreContiguous(shorter);
      var before, after := Run(shorter).rows, Run(actions).rows;
      StepKeepsRows(Run(shorter), last);
      forall key | key in after ensures EarlierReverted(after, key) {
        if key in before {
          RevertedStays(before, after, key);
        } else {
          OnlyRecordsAdd(Run(shorter), last, key);
          var m :| 0 <= m <= |shorter| && EarlierReverted(Run(actions[..m]).rows, key);
          assert shorter[..m] == actions[..m];
          BytesAreForever(shorter, m);
          RevertedStays(Run(shorter[..m]).rows, before, key);
          RevertedStays(before, after, key);
        }
      }
    }
  }

  lemma OnlyRecordsAdd(w: World, action: Action, key: Key)
    requires key !in w.rows && key in Step(w, action).rows
    ensures action.Record? && action.key == key
  {
  }

  /**
   * Whatever races and crashes happen between a lookup and the record it leads to: of all
   * the attempts at one action, every one but the last is confirmed reverted, so at most one
   * can ever succeed.
   */
  lemma {:induction false} AtMostOneAttemptSucceeds(actions: seq<Action>, one: Key, other: Key)
    requires LookedUp(actions) && one in Run(actions).rows && other in Run(actions).rows
    requires other == Numbered(one, other.attempt) && one.attempt < other.attempt
    ensures Run(actions).rows[one].status.ConfirmedReverted?
    ensures forall later: seq<Action> :: actions <= later ==>
      one in Run(later).rows && Run(later).rows[one].status.ConfirmedReverted?
  {
    NumbersAreContiguous(actions);
    assert Numbered(other, one.attempt) == one;
    assert EarlierReverted(Run(actions).rows, one);
    forall later: seq<Action> | actions <= later
      ensures one in Run(later).rows && Run(later).rows[one].status.ConfirmedReverted?
    {
      assert later[..|actions|] == actions;
      BytesAreForever(later, |actions|);
    }
  }

  /** And since a confirmed revert is permanent, of contiguous attempts no later chain has two that succeeded. */
  lemma OfContiguousOneSucceeds(rows: Rows, one: Key, other: Key, permanent: Blocks, later: Blocks)
    requires Contiguous(rows) && one in rows && other in rows
    requires other == Numbered(one, other.attempt) && one != other
    requires Resolver.Founded(rows[one], permanent) && Resolver.Founded(rows[other], permanent)
    requires Chain.Valid(later) && permanent <= later
    ensures !(IsMined(later, rows[one].raw, true) && IsMined(later, rows[other].raw, true))
  {
    var first, last := if one.attempt < other.attempt then one else other, if one.attempt < other.attempt then other else one;
    assert EarlierReverted(rows, first) && EarlierReverted(rows, last);
    assert Numbered(last, first.attempt) == first;
    AnOutcomeIsPermanent(permanent, later, rows[first].raw, false);
  }
}
