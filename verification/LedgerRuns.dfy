/**
 * Every run of the ledger by any number of processes: one makes a first send, any number
 * resolve, and each may die between two of its steps. The callers are `_create_deal`, `_send`
 * and `_tx_resolve` of wrasse/cli.py over the ledger of wrasse/chain.py.
 */
module LedgerRuns {
  import opened Chain
  import opened Constants
  import opened Numeric
  import opened Ledger

  /** How far the process that recorded a row has got with its first send. */
  datatype FirstSend = Recorded | Attempted | TurnedAway

  /**
   * `atLarge` holds the bytes a node may have: everything a process set out to send, less a first
   * send a node refused before admitting it. `counted` is the highest pending count the chain has
   * reported for a wallet, `settled` the rows whose nonce was ever spent. None of the
   * three is stored anywhere; they are what the rows are judged against.
   */
  datatype World = World(
    rows: Rows,
    sending: map<Key, FirstSend>,
    atLarge: set<Raw>,
    settled: set<Key>,
    counted: map<Account, nat>)

  const EMPTY_WORLD := World(map[], map[], {}, {}, map[])

  function Counted(w: World, account: Account): nat {
    if account in w.counted then w.counted[account] else 0
  }

  datatype Action =
    /** `record_signed`, with the pending count read inside it. */
    | Record(key: Key, chainNonce: nat, sign: nat -> Option<SignedIntent>)
    /** The recorder marks its attempt before it sends. */
    | MarkFirst(key: Key)
    /** The first send was accepted, already known, or left in doubt; or the process died inside it. */
    | Offered(key: Key)
    /** The node refused the first send before admitting it. */
    | TurnAway(key: Key)
    /** The recorder gives the nonce back, on its own snapshot. */
    | Release(key: Key)
    /** The recorder dies before it has sent. */
    | Die(key: Key)
    /** Any `set_status` by anybody on a snapshot; a bump is a resend about to happen. */
    | Move(key: Key, seen: Status, status: Status, block: Option<BlockRef>, bump: bool)

  function Without(sending: map<Key, FirstSend>, key: Key): map<Key, FirstSend> {
    map k | k in sending && k != key :: sending[k]
  }

  predicate AtStage(w: World, key: Key, stage: FirstSend) {
    key in w.rows && key in w.sending && w.sending[key] == stage
  }

  ghost function Recording(w: World, key: Key, chainNonce: nat, sign: nat -> Option<SignedIntent>): World {
    var outcome := RecordOutcome(w.rows, key, chainNonce, sign);
    if !outcome.Created? then w
    else w.(
      rows := AfterRecord(w.rows, key, outcome),
      sending := w.sending[key := Recorded],
      counted := w.counted[key.account := Max(Counted(w, key.account), chainNonce)])
  }

  function Marking(w: World, key: Key): World {
    var result := SetStatusResult(w.rows, key, Signed, SendAttempted, None, true);
    if !AtStage(w, key, Recorded) then w
    else if result.Err? then w.(sending := Without(w.sending, key))
    else w.(rows := AfterWrite(w.rows, key, result), sending := w.sending[key := Attempted])
  }

  /** The snapshot released on is the one the recorder's own mark returned. */
  function Releasing(w: World, key: Key): Result<Row, LedgerError> {
    UnbroadcastResult(w.rows, key, SendAttempted, 1)
  }

  /** The release takes effect. */
  predicate Releases(w: World, key: Key) {
    AtStage(w, key, TurnedAway) && Releasing(w, key).Ok?
  }

  function Moving(w: World, key: Key, seen: Status, status: Status, block: Option<BlockRef>, bump: bool): World {
    var result := SetStatusResult(w.rows, key, seen, status, block, bump);
    if result.Err? then w
    else w.(
      rows := AfterWrite(w.rows, key, result),
      atLarge := if bump then w.atLarge + {result.value.raw} else w.atLarge,
      settled := if Settled(status) then w.settled + {key} else w.settled)
  }

  ghost function Step(w: World, action: Action): World {
    match action
    case Record(key, chainNonce, sign) => Recording(w, key, chainNonce, sign)
    case MarkFirst(key) => Marking(w, key)
    case Offered(key) =>
      if AtStage(w, key, Attempted)
      then w.(atLarge := w.atLarge + {w.rows[key].raw}, sending := Without(w.sending, key)) else w
    case TurnAway(key) =>
      if AtStage(w, key, Attempted) then w.(sending := w.sending[key := TurnedAway]) else w
    case Release(key) =>
      if AtStage(w, key, TurnedAway)
      then w.(rows := AfterWrite(w.rows, key, Releasing(w, key)), sending := Without(w.sending, key)) else w
    case Die(key) => w.(sending := Without(w.sending, key))
    case Move(key, seen, status, block, bump) => Moving(w, key, seen, status, block, bump)
  }

  /**
   * What the world outside and the commands guarantee: the signer signs for its own wallet and the nonce it
   * names, the chain has only bytes that are at large, and every move into
   * `SEND_ATTEMPTED` from another status counts an attempt.
   */
  ghost predicate Honest(w: World, action: Action) {
    match action
    case Record(key, chainNonce, sign) =>
      var signed := sign(NextNonce(w.rows, key.account, chainNonce));
      signed.Some? ==> signed.value.raw.account == key.account && signed.value.raw.nonce == signed.value.nonce
    case Move(key, seen, status, _, bump) =>
      && (status.SendAttempted? && !seen.SendAttempted? ==> bump)
      && (bump ==> status.SendAttempted?)
      && (key in w.rows && (status.Pending? || status.IncludedSuccess? || status.IncludedReverted?) ==>
           w.rows[key].raw in w.atLarge)
    case _ => true
  }

  ghost function Run(actions: seq<Action>): World {
    if actions == [] then EMPTY_WORLD else Step(Run(actions[..|actions| - 1]), actions[|actions| - 1])
  }

  ghost predicate HonestRun(actions: seq<Action>) {
    actions == [] || (HonestRun(actions[..|actions| - 1]) && Honest(Run(actions[..|actions| - 1]), actions[|actions| - 1]))
  }

  // ---------------------------------------------------------------------------------------
  // One payload for each intent
  // ---------------------------------------------------------------------------------------

  /** Rows stay, with the bytes they were recorded with; a terminal row never moves again. */
  ghost predicate KeepsRows(before: Rows, after: Rows) {
    forall k :: k in before ==>
      && k in after
      && after[k].raw == before[k].raw && after[k].nonce == before[k].nonce && after[k].acceptBy == before[k].acceptBy
      && before[k].attempts <= after[k].attempts
      && (Terminal(before[k].status) ==> after[k].status == before[k].status)
  }

  lemma RewriteKeepsRows(rows: Rows, key: Key, row: Row)
    requires key in rows ==>
      && row.raw == rows[key].raw && row.nonce == rows[key].nonce && row.acceptBy == rows[key].acceptBy
      && rows[key].attempts <= row.attempts && (Terminal(rows[key].status) ==> row.status == rows[key].status)
    ensures KeepsRows(rows, rows[key := row])
  {
  }

  lemma StepKeepsRows(w: World, action: Action)
    ensures KeepsRows(w.rows, Step(w, action).rows)
  {
    match action
    case Record(key, chainNonce, sign) =>
      var outcome := RecordOutcome(w.rows, key, chainNonce, sign);
      if outcome.Created? {
        RewriteKeepsRows(w.rows, key, outcome.row);
      }
    case Move(key, seen, status, block, bump) =>
      var result := SetStatusResult(w.rows, key, seen, status, block, bump);
      if result.Ok? {
        RewriteKeepsRows(w.rows, key, result.value);
      }
    case MarkFirst(key) =>
      var result := SetStatusResult(w.rows, key, Signed, SendAttempted, None, true);
      if result.Ok? {
        RewriteKeepsRows(w.rows, key, result.value);
      }
    case Release(key) =>
      if Releasing(w, key).Ok? {
        RewriteKeepsRows(w.rows, key, Releasing(w, key).value);
      }
    case _ =>
  }

  lemma {:induction false} BytesAreForever(actions: seq<Action>, n: nat)
    requires n <= |actions|
    ensures KeepsRows(Run(actions[..n]).rows, Run(actions).rows)
  {
    if n == |actions| {
      assert actions[..n] == actions;
    } else {
      var shorter := actions[..|actions| - 1];
      BytesAreForever(shorter, n);
      assert shorter[..n] == actions[..n];
      StepKeepsRows(Run(shorter), actions[|actions| - 1]);
    }
  }

  /** The row `actions[i]` created, if it is the one that created it. */
  ghost predicate CreatesAt(actions: seq<Action>, i: nat, key: Key)
    requires i < |actions|
  {
    && actions[i].Record? && actions[i].key == key
    && RecordOutcome(Run(actions[..i]).rows, key, actions[i].chainNonce, actions[i].sign).Created?
  }

  /** However many processes race on an intent and however often they retry, the signer runs to a recorded row at most once for it. */
  lemma SignedAtMostOnce(actions: seq<Action>, i: nat, j: nat, key: Key)
    requires i < j < |actions| && CreatesAt(actions, i, key)
    ensures !CreatesAt(actions, j, key)
    ensures actions[j].Record? && actions[j].key == key ==>
      var first := RecordOutcome(Run(actions[..i]).rows, key, actions[i].chainNonce, actions[i].sign);
      var second := RecordOutcome(Run(actions[..j]).rows, key, actions[j].chainNonce, actions[j].sign);
      second.Existing? && second.row.raw == first.row.raw
  {
    assert actions[..i + 1][..i] == actions[..i];
    assert actions[..j][..i + 1] == actions[..i + 1];
    BytesAreForever(actions[..j], i + 1);
  }

  /** Every row there is, whatever has happened to it since, is what one signer gave for it: the nonce, the deadline and the bytes, at a number the chain had not counted past. */
  lemma {:induction false} EveryRowIsAsSigned(actions: seq<Action>, key: Key) returns (i: nat)
    requires key in Run(actions).rows
    ensures i < |actions| && CreatesAt(actions, i, key)
    ensures var row := Run(actions).rows[key];
      && actions[i].sign(row.nonce) == Some(SignedIntent(row.nonce, row.acceptBy, row.raw))
      && actions[i].chainNonce <= row.nonce
  {
    var n := |actions| - 1;
    var before := Run(actions[..n]);
    if key in before.rows {
      i := EveryRowIsAsSigned(actions[..n], key);
      assert actions[..n][..i] == actions[..i];
      StepKeepsRows(before, actions[n]);
    } else {
      i := n;
    }
  }

  // ---------------------------------------------------------------------------------------
  // What every honest run keeps
  // ---------------------------------------------------------------------------------------

  /** Rows name their own wallet and nonce in their bytes, and no two rows share bytes. */
  ghost predicate BytesMatch(rows: Rows) {
    && (forall k :: k in rows ==> rows[k].raw.account == k.account && rows[k].raw.nonce == rows[k].nonce)
    && (forall j, k :: j in rows && k in rows && rows[j].raw == rows[k].raw ==> j == k)
  }

  /** Only recorded bytes are ever sent, and only after an attempt was counted. */
  ghost predicate OnlyRecordedBytes(w: World) {
    && (forall r :: r in w.atLarge ==> exists k :: k in w.rows && w.rows[k].raw == r)
    && (forall k :: k in w.rows && w.rows[k].raw in w.atLarge ==> w.rows[k].attempts >= 1)
    && (forall k :: k in w.rows && w.rows[k].status.Signed? ==> w.rows[k].attempts == 0)
  }

  /** Until the first send is answered, the bytes are at large exactly when somebody else has resent them. */
  ghost predicate FirstSends(w: World) {
    forall k :: k in w.sending && !w.sending[k].Recorded? && k in w.rows ==>
      && w.rows[k].attempts >= 1
      && (w.rows[k].raw in w.atLarge <==> w.rows[k].attempts >= 2)
  }

  ghost predicate Inv(w: World) {
    BytesMatch(w.rows) && OnlyRecordedBytes(w) && FirstSends(w)
  }

  lemma RecordingKeeps(w: World, key: Key, chainNonce: nat, sign: nat -> Option<SignedIntent>)
    requires Inv(w) && Honest(w, Record(key, chainNonce, sign))
    ensures Inv(Recording(w, key, chainNonce, sign))
  {
    var outcome := RecordOutcome(w.rows, key, chainNonce, sign);
    if outcome.Created? {
      var after := Recording(w, key, chainNonce, sign);
      assert !HashTaken(w.rows, key.account.chainId, outcome.row.raw);
      assert forall k :: k in w.rows ==> w.rows[k].raw != outcome.row.raw;
      assert forall k :: k in w.rows ==> after.rows[k] == w.rows[k];
      forall r | r in after.atLarge ensures exists k :: k in after.rows && after.rows[k].raw == r {
        var k :| k in w.rows && w.rows[k].raw == r;
        assert k in after.rows;
      }
    }
  }

  /** A row changing status and no more. */
  lemma RewriteKeeps(w: World, key: Key, row: Row)
    requires BytesMatch(w.rows) && OnlyRecordedBytes(w) && key in w.rows
    requires row.raw == w.rows[key].raw && row.nonce == w.rows[key].nonce
    requires w.rows[key].attempts <= row.attempts && (row.status.Signed? ==> row.attempts == 0)
    ensures BytesMatch(w.rows[key := row]) && OnlyRecordedBytes(w.(rows := w.rows[key := row]))
  {
    var after := w.rows[key := row];
    forall r | r in w.atLarge ensures exists k :: k in after && after[k].raw == r {
      var k :| k in w.rows && w.rows[k].raw == r;
      assert k in after;
    }
  }

  lemma SendingKeeps(w: World, key: Key)
    requires OnlyRecordedBytes(w) && BytesMatch(w.rows) && key in w.rows && w.rows[key].attempts >= 1
    ensures OnlyRecordedBytes(w.(atLarge := w.atLarge + {w.rows[key].raw}))
  {
  }

  lemma MovingFirstSends(w: World, key: Key, row: Row, bump: bool)
    requires FirstSends(w) && BytesMatch(w.rows) && key in w.rows && row.raw == w.rows[key].raw
    requires row.attempts == w.rows[key].attempts + if bump then 1 else 0
    ensures FirstSends(w.(rows := w.rows[key := row], atLarge := if bump then w.atLarge + {row.raw} else w.atLarge))
  {
  }

  lemma MovingKeeps(w: World, key: Key, seen: Status, status: Status, block: Option<BlockRef>, bump: bool)
    requires Inv(w) && Honest(w, Move(key, seen, status, block, bump))
    ensures Inv(Moving(w, key, seen, status, block, bump))
  {
    var result := SetStatusResult(w.rows, key, seen, status, block, bump);
    if result.Ok? {
      var row := result.value;
      RewriteKeeps(w, key, row);
      MovingFirstSends(w, key, row, bump);
      if bump {
        SendingKeeps(w.(rows := w.rows[key := row]), key);
      }
    }
  }

  lemma MarkingKeeps(w: World, key: Key)
    requires Inv(w)
    ensures Inv(Marking(w, key))
  {
    var result := SetStatusResult(w.rows, key, Signed, SendAttempted, None, true);
    if AtStage(w, key, Recorded) && result.Ok? {
      RewriteKeeps(w, key, result.value);
    }
  }

  lemma ReleasingKeeps(w: World, key: Key)
    requires Inv(w) && Releases(w, key)
    ensures Inv(Step(w, Release(key)))
  {
    RewriteKeeps(w, key, Releasing(w, key).value);
  }

  lemma OfferedKeeps(w: World, key: Key)
    requires Inv(w)
    ensures Inv(Step(w, Offered(key)))
  {
    if AtStage(w, key, Attempted) {
      SendingKeeps(w, key);
    }
  }

  lemma StepKeepsInv(w: World, action: Action)
    requires Inv(w) && Honest(w, action)
    ensures Inv(Step(w, action))
  {
    match action
    case Record(key, chainNonce, sign) => RecordingKeeps(w, key, chainNonce, sign);
    case Move(key, seen, status, block, bump) => MovingKeeps(w, key, seen, status, block, bump);
    case MarkFirst(key) => MarkingKeeps(w, key);
    case Offered(key) => OfferedKeeps(w, key);
    case Release(key) =>
      if Releases(w, key) {
        ReleasingKeeps(w, key);
      }
    case _ =>
  }

  lemma {:induction false} EveryRunKeepsInv(actions: seq<Action>)
    requires HonestRun(actions)
    ensures Inv(Run(actions))
  {
    if actions != [] {
      EveryRunKeepsInv(actions[..|actions| - 1]);
      StepKeepsInv(Run(actions[..|actions| - 1]), actions[|actions| - 1]);
    }
  }

  /**
   * `mark_unbroadcast` judges the attempts of the snapshot it was handed, while the swap
   * compares only the status. Over every run, giving the nonce back is safe exactly when the
   * attempts stored by then are still the one the snapshot saw.
   */
  lemma {:induction false} ReleaseIsSafeIff(actions: seq<Action>, key: Key)
    requires HonestRun(actions) && Releases(Run(actions), key)
    ensures var w := Run(actions); w.rows[key].raw !in w.atLarge <==> w.rows[key].attempts == 1
  {
    EveryRunKeepsInv(actions);
  }

  // ---------------------------------------------------------------------------------------
  // No nonce gap
  // ---------------------------------------------------------------------------------------

  /**
   * One wallet's live rows hold distinct nonces; below each of them every number is held by a
   * live row or was covered by a count the chain reported; and a row whose nonce was never
   * spent holds the highest of all, so there is at most one such row.
   */
  ghost predicate NoGap(w: World) {
    && (forall j, k :: j in w.rows && k in w.rows && j != k && j.account == k.account && Live(w.rows[j]) && Live(w.rows[k]) ==>
         && w.rows[j].nonce != w.rows[k].nonce
         && (k !in w.settled ==> w.rows[j].nonce < w.rows[k].nonce))
    && (forall k, n :: k in w.rows && Live(w.rows[k]) && Counted(w, k.account) <= n < w.rows[k].nonce ==>
         n in LiveNonces(w.rows, k.account))
  }

  /** A spent nonce is never given back, and it was spent by these bytes or taken by others for good; bytes whose nonce was given back were never sent. */
  ghost predicate Spent(w: World) {
    && (forall k :: k in w.settled ==> k in w.rows && Live(w.rows[k]))
    && (forall k :: k in w.settled && !w.rows[k].status.NonceConsumedOrReplaced? ==> w.rows[k].raw in w.atLarge)
    && (forall k :: k in w.rows && k in w.sending && !w.sending[k].Recorded? ==> Live(w.rows[k]))
    && (forall k :: k in w.rows && Settled(w.rows[k].status) ==> k in w.settled)
    && (forall k :: k in w.rows && !Live(w.rows[k]) ==> w.rows[k].raw !in w.atLarge)
  }

  /** A release that finds the attempt its snapshot saw. */
  ghost predicate Fresh(w: World, action: Action) {
    action.Release? && Releases(w, action.key) ==> w.rows[action.key].attempts == 1
  }

  ghost predicate FreshRun(actions: seq<Action>) {
    actions == [] || (FreshRun(actions[..|actions| - 1]) && Fresh(Run(actions[..|actions| - 1]), actions[|actions| - 1]))
  }

  lemma LiveNoncesAfterRewrite(rows: Rows, key: Key, row: Row, account: Account)
    requires key in rows && row.nonce == rows[key].nonce && Live(row) == Live(rows[key])
    ensures LiveNonces(rows[key := row], account) == LiveNonces(rows, account)
  {
  }

  /** A live row changing status, and perhaps becoming settled, opens no gap. */
  lemma RewriteOpensNoGap(w: World, after: World, key: Key, row: Row)
    requires NoGap(w) && key in w.rows && row.nonce == w.rows[key].nonce && Live(row) && Live(w.rows[key])
    requires after.rows == w.rows[key := row] && w.settled <= after.settled && after.counted == w.counted
    ensures NoGap(after)
  {
    forall k, n | k in after.rows && Live(after.rows[k]) && Counted(after, k.account) <= n < after.rows[k].nonce
      ensures n in LiveNonces(after.rows, k.account)
    {
      LiveNoncesAfterRewrite(w.rows, key, row, k.account);
      assert Counted(w, k.account) == Counted(after, k.account);
    }
  }

  /** Giving back a nonce that was never spent takes the highest away, and so opens no gap. */
  lemma ReleaseOpensNoGap(w: World, after: World, key: Key, row: Row)
    requires NoGap(w) && key in w.rows && key !in w.settled && Live(w.rows[key]) && !Live(row)
    requires after.rows == w.rows[key := row] && after.settled == w.settled && after.counted == w.counted
    ensures NoGap(after)
  {
    forall k, n | k in after.rows && Live(after.rows[k]) && Counted(after, k.account) <= n < after.rows[k].nonce
      ensures n in LiveNonces(after.rows, k.account)
    {
      assert Counted(w, k.account) == Counted(after, k.account);
      assert n in LiveNonces(w.rows, k.account);
      var j :| j in w.rows && j.account == k.account && Live(w.rows[j]) && w.rows[j].nonce == n;
      assert j != key;
      assert j in after.rows && Live(after.rows[j]);
    }
  }

  lemma RecordOpensNoGap(w: World, key: Key, chainNonce: nat, sign: nat -> Option<SignedIntent>)
    requires NoGap(w) && Spent(w)
    ensures NoGap(Recording(w, key, chainNonce, sign))
  {
    var outcome := RecordOutcome(w.rows, key, chainNonce, sign);
    if outcome.Created? {
      var after := Recording(w, key, chainNonce, sign);
      var held := LiveNonces(w.rows, key.account);
      TopIsAbove(held);
      forall k | k in w.rows && k.account == key.account && Live(w.rows[k])
        ensures k in w.settled && w.rows[k].nonce < outcome.row.nonce
      {
        assert k !in Blocking(w.rows, key.account);
        assert w.rows[k].nonce in held;
      }
      forall k, n | k in after.rows && Live(after.rows[k]) && Counted(after, k.account) <= n < after.rows[k].nonce
        ensures n in LiveNonces(after.rows, k.account)
      {
        var j := WhoHolds(w, key, chainNonce, k, n, outcome.row);
        assert j in after.rows && Live(after.rows[j]) && after.rows[j].nonce == n;
      }
    }
  }

  lemma WhoHolds(w: World, key: Key, chainNonce: nat, k: Key, n: nat, row: Row) returns (j: Key)
    requires NoGap(w) && key !in w.rows
    requires row.nonce == NextNonce(w.rows, key.account, chainNonce)
    requires if k == key then n < row.nonce && Max(Counted(w, key.account), chainNonce) <= n
             else k in w.rows && Live(w.rows[k]) && n < w.rows[k].nonce && Counted(w, k.account) <= n
    ensures j in w.rows && j.account == k.account && Live(w.rows[j]) && w.rows[j].nonce == n
  {
    var held := LiveNonces(w.rows, k.account);
    if k == key {
      TopIsAbove(held);
      var top :| top in w.rows && top.account == k.account && Live(w.rows[top]) && w.rows[top].nonce == Top(held) - 1;
      if n == Top(held) - 1 {
        return top;
      }
    }
    assert n in held;
    j :| j in w.rows && j.account == k.account && Live(w.rows[j]) && w.rows[j].nonce == n;
  }

  lemma MoveOpensNoGap(w: World, key: Key, seen: Status, status: Status, block: Option<BlockRef>, bump: bool)
    requires Inv(w) && NoGap(w) && Spent(w)
    ensures NoGap(Moving(w, key, seen, status, block, bump))
  {
    var result := SetStatusResult(w.rows, key, seen, status, block, bump);
    if result.Ok? {
      var after := Moving(w, key, seen, status, block, bump);
      if status.Unbroadcast? {
        assert w.rows[key].attempts == 0;
        ReleaseOpensNoGap(w, after, key, result.value);
      } else {
        RewriteOpensNoGap(w, after, key, result.value);
      }
    }
  }

  lemma MarkOpensNoGap(w: World, key: Key)
    requires NoGap(w)
    ensures NoGap(Marking(w, key))
  {
    var result := SetStatusResult(w.rows, key, Signed, SendAttempted, None, true);
    if AtStage(w, key, Recorded) && result.Ok? {
      RewriteOpensNoGap(w, Marking(w, key), key, result.value);
    }
  }

  lemma GivingBackOpensNoGap(w: World, key: Key)
    requires Inv(w) && NoGap(w) && Spent(w) && Releases(w, key) && w.rows[key].attempts == 1
    ensures NoGap(Step(w, Release(key)))
  {
    assert key !in w.settled;
    ReleaseOpensNoGap(w, Step(w, Release(key)), key, Releasing(w, key).value);
  }

  /** Nothing about the rows or the counts has changed. */
  lemma QuietOpensNoGap(w: World, after: World)
    requires NoGap(w) && after.rows == w.rows && after.settled == w.settled && after.counted == w.counted
    ensures NoGap(after)
  {
  }

  lemma StepOpensNoGap(w: World, action: Action)
    requires Inv(w) && NoGap(w) && Spent(w) && Honest(w, action) && Fresh(w, action)
    ensures NoGap(Step(w, action))
  {
    match action
    case Record(key, chainNonce, sign) => RecordOpensNoGap(w, key, chainNonce, sign);
    case Move(key, seen, status, block, bump) => MoveOpensNoGap(w, key, seen, status, block, bump);
    case MarkFirst(key) => MarkOpensNoGap(w, key);
    case Release(key) =>
      if Releases(w, key) {
        GivingBackOpensNoGap(w, key);
      } else {
        QuietOpensNoGap(w, Step(w, action));
      }
    case _ => QuietOpensNoGap(w, Step(w, action));
  }

  lemma RecordKeepsSpent(w: World, key: Key, chainNonce: nat, sign: nat -> Option<SignedIntent>)
    requires Spent(w)
    ensures Spent(Recording(w, key, chainNonce, sign))
  {
  }

  lemma MoveKeepsSpent(w: World, key: Key, seen: Status, status: Status, block: Option<BlockRef>, bump: bool)
    requires Inv(w) && Spent(w) && Honest(w, Move(key, seen, status, block, bump))
    ensures Spent(Moving(w, key, seen, status, block, bump))
  {
    var result := SetStatusResult(w.rows, key, seen, status, block, bump);
    if result.Ok? {
      AMoveRewrites(w, key, seen, status, block, bump);
      RewriteKeepsSpent(w, key, result.value, bump);
    }
  }

  lemma AMoveRewrites(w: World, key: Key, seen: Status, status: Status, block: Option<BlockRef>, bump: bool)
    requires Inv(w) && Spent(w) && Honest(w, Move(key, seen, status, block, bump))
    requires SetStatusResult(w.rows, key, seen, status, block, bump).Ok?
    ensures var row := SetStatusResult(w.rows, key, seen, status, block, bump).value;
      && key in w.rows && row.raw == w.rows[key].raw && row.status == status && Live(w.rows[key])
      && (key in w.settled || Settled(status) ==> Live(row))
      && ((key in w.settled || Settled(status)) && !status.NonceConsumedOrReplaced? ==> row.raw in w.atLarge)
      && (!Live(row) ==> row.raw !in w.atLarge && !bump && (key in w.sending ==> w.sending[key].Recorded?))
  {
    assert status.Unbroadcast? ==> w.rows[key].attempts == 0;
    assert status.ConfirmedSuccess? || status.ConfirmedReverted? ==> key in w.settled;
  }

  lemma RewriteKeepsSpent(w: World, key: Key, row: Row, bump: bool)
    requires Inv(w) && Spent(w) && key in w.rows && row.raw == w.rows[key].raw && Live(w.rows[key])
    requires key in w.settled || Settled(row.status) ==> Live(row)
    requires (key in w.settled || Settled(row.status)) && !row.status.NonceConsumedOrReplaced? ==> row.raw in w.atLarge
    requires !Live(row) ==> row.raw !in w.atLarge && !bump && (key in w.sending ==> w.sending[key].Recorded?)
    ensures Spent(w.(
      rows := w.rows[key := row],
      atLarge := if bump then w.atLarge + {row.raw} else w.atLarge,
      settled := if Settled(row.status) then w.settled + {key} else w.settled))
  {
  }

  lemma ReleaseKeepsSpent(w: World, key: Key)
    requires Inv(w) && Spent(w) && Releases(w, key) && w.rows[key].attempts == 1
    ensures Spent(Step(w, Release(key)))
  {
    var after := Step(w, Release(key));
    assert forall k :: k in w.rows && k != key ==> after.rows[k] == w.rows[k];
    assert w.rows[key].raw !in w.atLarge;
  }

  lemma MarkKeepsSpent(w: World, key: Key)
    requires Spent(w)
    ensures Spent(Marking(w, key))
  {
  }

  lemma OfferKeepsSpent(w: World, key: Key)
    requires Inv(w) && Spent(w)
    ensures Spent(Step(w, Offered(key)))
  {
  }

  lemma StepKeepsSpent(w: World, action: Action)
    requires Inv(w) && Spent(w) && Honest(w, action) && Fresh(w, action)
    ensures Spent(Step(w, action))
  {
    match action
    case Record(key, chainNonce, sign) => RecordKeepsSpent(w, key, chainNonce, sign);
    case Move(key, seen, status, block, bump) => MoveKeepsSpent(w, key, seen, status, block, bump);
    case MarkFirst(key) => MarkKeepsSpent(w, key);
    case Offered(key) => OfferKeepsSpent(w, key);
    case Release(key) =>
      if Releases(w, key) {
        ReleaseKeepsSpent(w, key);
      }
    case _ =>
  }

  /** In every honest run whose releases are fresh, no wallet ever has a nonce gap. */
  lemma {:induction false} NoRunOpensAGap(actions: seq<Action>)
    requires HonestRun(actions) && FreshRun(actions)
    ensures var w := Run(actions); Inv(w) && NoGap(w) && Spent(w)
  {
    EveryRunKeepsInv(actions);
    if actions != [] {
      var shorter := actions[..|actions| - 1];
      NoRunOpensAGap(shorter);
      StepOpensNoGap(Run(shorter), actions[|actions| - 1]);
      StepKeepsSpent(Run(shorter), actions[|actions| - 1]);
    }
  }

  // ---------------------------------------------------------------------------------------
  // What follows
  // ---------------------------------------------------------------------------------------

  /** An insert never meets the unique nonce index, and meets the unique hash index only over bytes whose nonce was given back. */
  lemma {:induction false} AnInsertOnlyMeetsReleasedBytes(actions: seq<Action>, key: Key, chainNonce: nat, sign: nat -> Option<SignedIntent>)
    requires HonestRun(actions) && FreshRun(actions) && Honest(Run(actions), Record(key, chainNonce, sign))
    ensures var w := Run(actions); var outcome := RecordOutcome(w.rows, key, chainNonce, sign);
      && outcome != Refused(NonceTaken)
      && (outcome == Refused(DuplicateHash) ==>
           exists k :: k in w.rows && Released(w.rows[k].status)
             && w.rows[k].raw == sign(NextNonce(w.rows, key.account, chainNonce)).value.raw)
  {
    var w := Run(actions);
    NoRunOpensAGap(actions);
    TopIsAbove(LiveNonces(w.rows, key.account));
    var nonce := NextNonce(w.rows, key.account, chainNonce);
    if RecordOutcome(w.rows, key, chainNonce, sign) == Refused(DuplicateHash) {
      var raw := sign(nonce).value.raw;
      var k :| k in w.rows && k.account.chainId == key.account.chainId && w.rows[k].raw == raw;
      assert k.account == key.account && w.rows[k].nonce == nonce;
      assert nonce !in LiveNonces(w.rows, key.account);
    }
  }

  /** A row of the wallet is still waiting. */
  ghost predicate SomebodyWaits(rows: Rows, account: Account) {
    exists k :: k in rows && k.account == account && StillWaiting(rows[k].status)
  }

  /** The signer answers for exactly the nonce it was offered, with bytes no row of the chain has. */
  ghost predicate SignsAnew(rows: Rows, account: Account, nonce: nat, signed: Option<SignedIntent>) {
    && signed.Some? && signed.value.nonce == nonce
    && forall k :: k in rows && k.account.chainId == account.chainId ==> rows[k].raw != signed.value.raw
  }

  /**
   * What a record answers after any such run: the row there is, if there is one; busy, exactly while
   * a row of its own wallet waits, whatever others do; and otherwise a new row exactly when the signer signs anew.
   */
  lemma {:induction false} WhatARecordAnswers(actions: seq<Action>, key: Key, chainNonce: nat, sign: nat -> Option<SignedIntent>)
    requires HonestRun(actions) && FreshRun(actions) && Honest(Run(actions), Record(key, chainNonce, sign))
    ensures var rows := Run(actions).rows; var outcome := RecordOutcome(rows, key, chainNonce, sign);
      var nonce := NextNonce(rows, key.account, chainNonce);
      && (outcome.Existing? <==> key in rows)
      && (outcome.Existing? ==> outcome.row == rows[key])
      && (outcome == Refused(WalletBusy) <==> key !in rows && SomebodyWaits(rows, key.account))
      && (outcome.Created? <==> key !in rows && !SomebodyWaits(rows, key.account) && SignsAnew(rows, key.account, nonce, sign(nonce)))
      && (outcome.Created? ==>
           && outcome.row.raw == sign(nonce).value.raw && outcome.row.acceptBy == sign(nonce).value.acceptBy
           && outcome.row.nonce == nonce && outcome.row.status.Signed? && outcome.row.attempts == 0)
  {
    var rows := Run(actions).rows;
    AnInsertOnlyMeetsReleasedBytes(actions, key, chainNonce, sign);
    WaitingBlocks(rows, key.account);
  }

  lemma WaitingBlocks(rows: Rows, account: Account)
    ensures SomebodyWaits(rows, account) <==> Blocking(rows, account) != {}
  {
    if SomebodyWaits(rows, account) {
      var k :| k in rows && k.account == account && StillWaiting(rows[k].status);
      assert k in Blocking(rows, account);
    }
    if k :| k in Blocking(rows, account) {
      assert StillWaiting(rows[k].status);
    }
  }

  /** The nonce offered is past the chain's count and every live nonce, and is the least that is. */
  lemma TheNonceOffered(rows: Rows, account: Account, chainNonce: nat)
    ensures var nonce := NextNonce(rows, account, chainNonce);
      && chainNonce <= nonce
      && (forall k :: k in rows && k.account == account && !rows[k].status.Unbroadcast? ==> rows[k].nonce < nonce)
      && (nonce == chainNonce || exists k :: k in rows && k.account == account && !rows[k].status.Unbroadcast? && rows[k].nonce == nonce - 1)
  {
    TopIsAbove(LiveNonces(rows, account));
    forall k | k in rows && k.account == account && !rows[k].status.Unbroadcast? ensures rows[k].nonce in LiveNonces(rows, account) {
      assert Live(rows[k]);
    }
  }

  /**
   * Only the highest nonce is ever given back, and it is the next one allocated unless the
   * chain's own count, read without going backwards, has passed it.
   */
  lemma {:induction false} AReleasedNonceIsOfferedAgain(actions: seq<Action>, action: Action, key: Key, chainNonce: nat)
    requires HonestRun(actions + [action]) && FreshRun(actions + [action])
    requires key in Run(actions).rows && Live(Run(actions).rows[key]) && !Live(Run(actions + [action]).rows[key])
    requires Counted(Run(actions), key.account) <= chainNonce
    ensures var nonce := Run(actions).rows[key].nonce;
      && (forall n :: n in LiveNonces(Run(actions).rows, key.account) ==> n <= nonce)
      && NextNonce(Run(actions + [action]).rows, key.account, chainNonce) == Max(chainNonce, nonce)
  {
    assert (actions + [action])[..|actions|] == actions;
    var w, after := Run(actions), Run(actions + [action]);
    NoRunOpensAGap(actions);
    NoRunOpensAGap(actions + [action]);
    var nonce := w.rows[key].nonce;
    OthersStay(w, action, key);
    assert key !in after.settled;
    WhatComesAfterARelease(w, after.rows, key, chainNonce);
  }

  lemma WhatComesAfterARelease(w: World, after: Rows, key: Key, chainNonce: nat)
    requires NoGap(w) && key in w.rows && key !in w.settled && Live(w.rows[key])
    requires after.Keys == w.rows.Keys && !Live(after[key])
    requires forall k :: k in w.rows && k != key ==> after[k] == w.rows[k]
    requires Counted(w, key.account) <= chainNonce
    ensures forall n :: n in LiveNonces(w.rows, key.account) ==> n <= w.rows[key].nonce
    ensures NextNonce(after, key.account, chainNonce) == Max(chainNonce, w.rows[key].nonce)
  {
    var nonce := w.rows[key].nonce;
    var held := LiveNonces(after, key.account);
    TopIsAbove(held);
    forall n | n in held ensures n < nonce {
      var k :| k in after && k.account == key.account && Live(after[k]) && after[k].nonce == n;
    }
    if Counted(w, key.account) < nonce {
      assert nonce - 1 in LiveNonces(w.rows, key.account);
      var k :| k in w.rows && k.account == key.account && Live(w.rows[k]) && w.rows[k].nonce == nonce - 1;
      assert k in after && Live(after[k]) && nonce - 1 in held;
    }
  }

  /** A step that gives one row's nonce back leaves every other row as it was. */
  lemma OthersStay(w: World, action: Action, key: Key)
    requires key in w.rows && Live(w.rows[key]) && !Live(Step(w, action).rows[key])
    ensures var after := Step(w, action);
      && after.rows.Keys == w.rows.Keys
      && after.settled == w.settled
      && forall k :: k in w.rows && k != key ==> after.rows[k] == w.rows[k]
  {
  }

  /** Nobody resends a row between its recorder's mark and the answer to its first send. */
  ghost predicate Undisturbed(w: World, action: Action) {
    action.Move? && action.bump && action.key in w.sending ==> w.sending[action.key].Recorded?
  }

  ghost predicate UndisturbedRun(actions: seq<Action>) {
    actions == [] || (UndisturbedRun(actions[..|actions| - 1]) && Undisturbed(Run(actions[..|actions| - 1]), actions[|actions| - 1]))
  }

  /** The discipline the commands keep is enough: with no resend inside a first send, every release is fresh. */
  lemma {:induction false} UndisturbedIsFresh(actions: seq<Action>)
    requires HonestRun(actions) && UndisturbedRun(actions)
    ensures FreshRun(actions)
    ensures forall k :: k in Run(actions).sending && !Run(actions).sending[k].Recorded? && k in Run(actions).rows ==>
      Run(actions).rows[k].attempts == 1
  {
    if actions != [] {
      var shorter := actions[..|actions| - 1];
      UndisturbedIsFresh(shorter);
      EveryRunKeepsInv(shorter);
      OneAttemptStays(Run(shorter), actions[|actions| - 1]);
    }
  }

  lemma OneAttemptStays(w: World, action: Action)
    requires Inv(w) && Undisturbed(w, action)
    requires forall k :: k in w.sending && !w.sending[k].Recorded? && k in w.rows ==> w.rows[k].attempts == 1
    ensures var after := Step(w, action);
      forall k :: k in after.sending && !after.sending[k].Recorded? && k in after.rows ==> after.rows[k].attempts == 1
  {
  }

  /**
   * Without that discipline the guard is not enough: a resolver resends while the recorder is
   * still waiting on a node that turns it away, and the recorder then gives back a nonce whose
   * bytes the resolver has put at large.
   */
  lemma AStaleReleaseLosesALiveNonce() returns (actions: seq<Action>, key: Key)
    ensures HonestRun(actions)
    ensures LostNonce(Run(actions), key)
  {
    var account := Account(84532, 1);
    key := Key(account, 2, 0, 1);
    var raw := Raw(account, 0, 7);
    var sign := (n: nat) => Some(SignedIntent(n, 0, Raw(account, n, 7)));
    var row := Row(0, 0, raw, Signed, None, 0);
    TopIsAbove(LiveNonces(map[], account));
    assert LiveNonces(map[], account) == {} && Blocking(map[], account) == {};
    var a0: seq<Action> := [];
    assert HonestRun(a0) && Run(a0) == EMPTY_WORLD;
    OneMore(a0, Record(key, 0, sign));
    var a1 := a0 + [Record(key, 0, sign)];
    assert RecordOutcome(map[], key, 0, sign) == Created(row);
    assert Run(a1).rows == map[key := row] && Run(a1).sending == map[key := Recorded];
    OneMore(a1, MarkFirst(key));
    var a2 := a1 + [MarkFirst(key)];
    assert Run(a2).rows == map[key := row.(status := SendAttempted, attempts := 1)] && Run(a2).sending == map[key := Attempted];
    actions := TheStaleHalf(a2, key, row);
  }

  /** A nonce given back while its bytes may still be mined. */
  ghost predicate LostNonce(w: World, key: Key) {
    key in w.rows && Released(w.rows[key].status) && w.rows[key].raw in w.atLarge
  }

  lemma TheStaleHalf(a2: seq<Action>, key: Key, row: Row) returns (a5: seq<Action>)
    requires HonestRun(a2) && Run(a2).rows == map[key := row.(status := SendAttempted, attempts := 1)]
    requires Run(a2).sending == map[key := Attempted]
    ensures HonestRun(a5) && LostNonce(Run(a5), key)
  {
    var resend := Move(key, SendAttempted, SendAttempted, None, true);
    var w := Run(a2);
    var a3 := a2 + [resend];
    OneMore(a2, resend);
    TheStaleSteps(w, key, row);
    var a4 := a3 + [TurnAway(key)];
    OneMore(a3, TurnAway(key));
    a5 := a4 + [Release(key)];
    OneMore(a4, Release(key));
  }

  lemma TheStaleSteps(w: World, key: Key, row: Row)
    requires w.rows == map[key := row.(status := SendAttempted, attempts := 1)]
    requires w.sending == map[key := Attempted]
    ensures LostNonce(Step(Step(Step(w, Move(key, SendAttempted, SendAttempted, None, true)), TurnAway(key)), Release(key)), key)
  {
    var resent := Step(w, Move(key, SendAttempted, SendAttempted, None, true));
    assert resent.rows[key].attempts == 2 && resent.rows[key].status.SendAttempted? && row.raw in resent.atLarge;
    var turned := Step(resent, TurnAway(key));
    assert AtStage(turned, key, TurnedAway) && turned.rows == resent.rows && turned.atLarge == resent.atLarge;
  }

  lemma {:induction false} OneMore(actions: seq<Action>, action: Action)
    ensures Run(actions + [action]) == Step(Run(actions), action)
    ensures HonestRun(actions + [action]) <==> HonestRun(actions) && Honest(Run(actions), action)
  {
  }
}
